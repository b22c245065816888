# SWP-Mars MQTT glue, modelled in Dafny

The Mars-habitat software in this repository talks to its sensors over MQTT.
The logic in its Flask/MQTT glue comes in three pieces, and this project
models all three.

- **The sensor threshold table** (`standardData.py`). Sixteen sensor
  categories each carry six range bounds: critical-low lower/upper,
  acceptable min/max and critical-high lower/upper. A list of 61 sensors
  maps MQTT topics of the form `device/channel` to their category. The
  devices are four measurement boards and the photobioreactor `pbr1`. Two
  chat topics complete the data.
- **The command-line publisher** (`publish.py`). `strToBool` reads a retain
  flag case-insensitively. The `__main__` block decides from `sys.argv`
  whether to print the usage message, publish with defaults, reject a QoS
  outside 0..2, or publish with an explicit QoS and retain flag. It may also
  end in an exception.
- **The HTTP endpoint** (`app.py`). `publish_message` reads topic, message,
  QoS and retain from the JSON body. It answers 400 when topic or message is
  missing or falsy. Otherwise it calls `run` and answers 200, or 500 with the
  exception text. A JSON body that is not an object fails before the `try`
  and gets Flask's generic 500.

Modules, in dependency order:

- `Wrappers` holds `Option` and `Result`.
- `Topics` splits `device/channel` strings.
- `StandardData` holds the category and sensor datatypes and the literal
  table.
- `SensorTable` covers generic block-structured sensor lists: membership,
  unique topics and per-device and per-category counts.
- `SensorFacts` proves the facts about the concrete table.
- `Text` does ASCII lower-casing.
- `Numerals` models Python's `int(str)` and `str(int)`.
- `Publish` holds `strToBool` and the argument dispatch.
- `App` holds the endpoint decision.

The sensor list is written exactly as in the source, one constant per
commented group. It is also described as eight blocks, each being "every
device × every channel of the block". The lemma `SensorFacts.Layout` proves
the two descriptions equal, so facts proved once about blocks hold for the
literal list.

The code lists 13 sensors per board:

- 4 air temperatures;
- pressure, O2, CO2, CO and O3, one each;
- 4 humidities.

With 9 photobioreactor sensors that gives 4 × 13 + 9 = 61 entries. The model
follows the code.

Python semantics are modelled as follows:

- `data.get(key, default)` falls back to the default only for an absent key.
  A key present with `null` gives `None`.
- Truthiness follows Python: `None`, `False`, `0`, `0.0`, `""`, `[]` and
  `{}` are false.
- `int(text)` skips white space (space, tab to carriage return) on both
  sides and takes an optional sign. Then come decimal digits, with single
  underscores allowed between them. It refuses text with more than 4300
  digits, the default limit of Python 3.11 and later.
- The separators 0x1C to 0x1F are not skipped, since CPython does not skip
  them in ASCII text.
- Python's JSON decoder yields NaN and the infinities for `NaN`,
  `Infinity`, `-Infinity` and overflowing numbers such as `1e999`. They are
  the one value `JNonFinite`, which is truthy and forwarded like any other
  float.
- `str(True)` is `"True"`.
- `sys.argv[0]` is the program name.

## Model

| member | source | states |
|---|---|---|
| StandardData.MakeType | swp24/mqtt-flask-app/standardData.py:2-9 | the constructor keeps the name and stores each of the six positional bounds in the field of its position |
| StandardData.Bounds | swp24/mqtt-flask-app/standardData.py:4-9 | a category's six bounds in band order; passed back to the constructor they rebuild the same category |
| StandardData.BoundsOfMakeType | swp24/mqtt-flask-app/standardData.py:2-9 | reading the bounds of a freshly built category gives back the constructor's arguments, in order |
| StandardData.OrderedBounds | swp24/mqtt-flask-app/standardData.py:29-44 | the bands nest, i.e. each neighbouring pair is `<=`, exactly when every earlier bound is `<=` every later bound |
| StandardData.CategoriesOrdered | swp24/mqtt-flask-app/standardData.py:29-44 | all sixteen category constants have nested bands; some neighbouring bounds coincide (18, 18 for air temperature; 35, 35, 35 for PBR O2) |
| SensorFacts.TypesOrdered | swp24/mqtt-flask-app/standardData.py:29-44 | the sixteen categories are the seven board categories followed by the nine photobioreactor categories, and all have nested bands |
| SensorFacts.SensorsOrdered | swp24/mqtt-flask-app/standardData.py:47-130 | the category of every listed sensor has nested bands |
| SensorFacts.Layout | swp24/mqtt-flask-app/standardData.py:47-130 | the sensor list is the expansion of eight blocks (devices × channels, one category per channel) |
| SensorFacts.Locate | swp24/mqtt-flask-app/standardData.py:49-129 | every listed sensor is the sensor of some device and channel of one block, with that channel's category |
| SensorFacts.TopicsUnique | swp24/mqtt-flask-app/standardData.py:47-130 | no two entries share a topic, so a topic determines its sensor and category |
| SensorFacts.TopicShape | swp24/mqtt-flask-app/standardData.py:49-129 | every topic has exactly one `/`, splits into device and channel and rejoins to itself, and its device is `board1`..`board4` or `pbr1` |
| SensorFacts.TopicTypes | swp24/mqtt-flask-app/standardData.py:49-129 | board sensors use only the seven board categories; `pbr1` sensors use only photobioreactor categories |
| SensorFacts.SensorCounts | swp24/mqtt-flask-app/standardData.py:49-129 | 61 entries: 13 on each board, 9 on `pbr1`, none on any other device |
| SensorFacts.PbrTypesOnce | swp24/mqtt-flask-app/standardData.py:120-129 | each of the nine photobioreactor categories is used by exactly one sensor |
| SensorFacts.PbrTypesOnPbr | swp24/mqtt-flask-app/standardData.py:120-129 | a sensor of a photobioreactor category publishes under `pbr1` |
| SensorFacts.BoardsMirror | swp24/mqtt-flask-app/standardData.py:49-118 | what one board measures on a channel, every board measures on that channel with the same category |
| SensorFacts.SameChannelSameType | swp24/mqtt-flask-app/standardData.py:76-79 | two board sensors with the same channel (e.g. every `boardN/o2`) have the same category |
| SensorFacts.ChatTopicsDistinct | swp24/mqtt-flask-app/standardData.py:132-137 | the two chat topics differ |
| SensorFacts.ChatTopicsApart | swp24/mqtt-flask-app/standardData.py:132-137 | no sensor publishes on a chat topic |
| SensorTable.TableMembers | swp24/mqtt-flask-app/standardData.py:47-130 | a sensor is in a block-structured list exactly when it is some device's sensor on some channel of one block |
| SensorTable.TableDistinct | swp24/mqtt-flask-app/standardData.py:47-130 | blocks with distinct, slash-free names that pairwise share no device or no channel give a list without repeated topics |
| SensorTable.ExpandDeviceCount | swp24/mqtt-flask-app/standardData.py:49-129 | in a block, each device occurs once per channel |
| SensorTable.ExpandTypeCount | swp24/mqtt-flask-app/standardData.py:49-129 | in a block, each category occurs once per device for each channel that carries it |
| Topics.JoinSplits | swp24/mqtt-flask-app/standardData.py:49-129 | a topic `device/channel` with a slash-free device splits back into that device and channel |
| Topics.JoinInjective | swp24/mqtt-flask-app/standardData.py:132-137 | for slash-free devices, two topics are equal exactly when device and channel are |
| Text.Lower | swp24/mqtt-flask-app/publish.py:40 | `s.lower()` for ASCII: same length, each upper-case letter replaced by its lower-case partner, everything else unchanged |
| Text.LowerEqual | swp24/mqtt-flask-app/publish.py:40-43 | lower-cased forms are equal exactly when the strings agree letter by letter up to case |
| Text.LowerIdempotent | swp24/mqtt-flask-app/publish.py:40-43 | lower-casing twice is lower-casing once |
| Publish.StrToBool | swp24/mqtt-flask-app/publish.py:39-45 | every failure carries the text "Cannot convert string to bool."; every accepted spelling is 1 to 5 characters long |
| Publish.StrToBoolWords | swp24/mqtt-flask-app/publish.py:40-43 | true exactly for the strings equal up to case to one of `true 1 t y yes`; false exactly for those equal up to case to one of `false 0 f n no` |
| Publish.StrToBoolLookup | swp24/mqtt-flask-app/publish.py:40-43 | true exactly when the lower-cased text is in the true list, false exactly when it is in the false list |
| Publish.WordsDisjoint | swp24/mqtt-flask-app/publish.py:40-43 | no spelling is in both lists |
| Publish.StrToBoolLower | swp24/mqtt-flask-app/publish.py:40-43 | lower-casing the input first does not change the result |
| Publish.StrToBoolEmpty | swp24/mqtt-flask-app/publish.py:44-45 | the empty string raises the error rather than defaulting |
| Publish.StrToBoolShow | swp24/mqtt-flask-app/publish.py:39-45 | `str(b)` ("True"/"False") reads back as `b` |
| Numerals.ParseInt | swp24/mqtt-flask-app/publish.py:54 | `int(text)` raises on blank text, and never accepts more than 4300 digits |
| Numerals.ParseDigits | swp24/mqtt-flask-app/publish.py:54 | a run of digits (single underscores allowed between them) reads as its value when it has at most 4300 digits, and is refused otherwise |
| Numerals.SeparatorNotSkipped | swp24/mqtt-flask-app/publish.py:54 | `int` refuses a file separator (0x1C) before a digit but skips a tab |
| Numerals.ParseShow | swp24/mqtt-flask-app/publish.py:54 | `int(str(n)) == n` for every integer, negative ones included, whose decimal form has at most 4300 digits (the length of `str(abs(n))`); `int` refuses longer forms |
| Numerals.ParseAccepted | swp24/mqtt-flask-app/publish.py:54 | `int` accepts a text exactly when, stripped of white space, it is a digit run or a `-` or `+` followed by one, with at most 4300 digits; everything else is refused |
| Numerals.ParsePlusDigits | swp24/mqtt-flask-app/publish.py:54 | a `+` before a digit run reads the same as the digits alone |
| Numerals.NotAnInteger | swp24/mqtt-flask-app/publish.py:54 | `int` refuses `1.5` and `1e3` and reads `+1` as 1 |
| Numerals.ParsePadded | swp24/mqtt-flask-app/publish.py:54 | `int` ignores white space before and after the number |
| Publish.Dispatch | swp24/mqtt-flask-app/publish.py:47-58 | Covers every path. Usage exactly when there are fewer than two user arguments. Two arguments publish with QoS 0 and retain false. An invalid QoS exactly when the third argument parses outside 0..2. A third argument that does not parse crashes with `QosNotAnInteger`. A valid QoS without a fourth argument crashes with `RetainMissing`. A valid QoS and an accepted flag publish the parsed QoS and flag. A valid QoS and a rejected flag crash with the `strToBool` error. Every publish has QoS in 0..2. |
| Publish.DispatchArgv | swp24/mqtt-flask-app/publish.py:54-58 | every call with QoS in 0..2 can be requested on the command line, and its argument vector dispatches to exactly that call |
| Publish.DispatchDefaults | swp24/mqtt-flask-app/publish.py:51-52 | giving only topic and message is the same as spelling out QoS 0 and retain false, the defaults of `run` and `publish` |
| Publish.QosCheckedFirst | swp24/mqtt-flask-app/publish.py:54-56 | an out-of-range QoS is rejected whatever follows it; the retain flag is never read |
| Publish.ExtraArgumentsIgnored | swp24/mqtt-flask-app/publish.py:58 | arguments after the retain flag change nothing |
| Publish.QosWithoutRetain | swp24/mqtt-flask-app/publish.py:51-58 | with exactly three user arguments nothing is published; a valid QoS goes on to read the missing fifth argument |
| Publish.DispatchDefaultRetain | swp24/mqtt-flask-app/publish.py:51-58 | the corrected dispatch agrees with `Publish.Dispatch` except with three user arguments, never crashes for a missing retain flag, and publishes only QoS 0..2 |
| Publish.DefaultRetainPublishes | swp24/mqtt-flask-app/publish.py:51-58 | under the corrected dispatch, a valid QoS without a retain flag publishes with retain false, as if it had been written out |
| App.Get | swp24/mqtt-flask-app/app.py:9-12 | `data.get(key, default)` is the stored value when the key is present (even `null`) and the default only when it is absent |
| App.Fields | swp24/mqtt-flask-app/app.py:8-12 | topic and message default to `None`, QoS to 0 and retain to `False`, each only for an absent key |
| App.PublishMessage | swp24/mqtt-flask-app/app.py:7-21 | `run` is not called exactly when topic or message is falsy, and then the answer is 400 "Topic and message are required"; otherwise `run` gets the four fields as read, and the answer is success naming the topic if it returned, or 500 with the exception text if it raised |
| App.MissingTopic | swp24/mqtt-flask-app/app.py:14-15 | an absent, `null` or empty topic gives 400 without calling `run` |
| App.MissingMessage | swp24/mqtt-flask-app/app.py:14-15 | an absent, `null` or empty message gives 400 without calling `run` |
| App.RefusalIgnoresRun | swp24/mqtt-flask-app/app.py:14-15 | a refused request is answered the same whatever `run` would do |
| App.ForwardedUnchanged | swp24/mqtt-flask-app/app.py:11-18 | QoS and retain reach `run` exactly as sent: no range check, and an explicit `null` is not replaced |
| App.Defaults | swp24/mqtt-flask-app/app.py:11-12 | without the optional keys, `run` gets QoS 0 and retain `False` |
| App.PublishRequest | swp24/mqtt-flask-app/app.py:8-21 | an object body is handled as above; any other JSON body (array, number, string, boolean, `null`) raises at `data.get` outside the `try`, giving Flask's generic 500 without calling `run` |
| App.RequestOutcome | swp24/mqtt-flask-app/app.py:8-21 | every decoded body gets a 400, 500 or 200; `run` is called exactly for an object whose topic and message are truthy; success exactly when `run` returned; Flask's generic 500 exactly for a body that is not an object |
| App.OneOutcome | swp24/mqtt-flask-app/app.py:14-21 | every request gets exactly one of 400, 500 and success: 400 exactly when `run` was not called, 500 exactly when it raised, success exactly when it returned |

## Left out

- MQTT connection handling is not modelled, because it is network I/O through a library: client creation, the `on_connect` callback, `loop_start`/`loop_stop`, `time.sleep(1)`, the broker address, the random client id, and the status check and printing in `publish`.
- A successful dispatch returns the `Call` that `run` would make. What `run` does with it is left out, including the exception the MQTT library raises for a bad QoS on the HTTP path.
- The exit status and the printed usage and invalid-QoS messages are represented only by the `Usage` and `InvalidQos` outcomes.
- `__main__` calls `int(sys.argv[3])` twice. Both calls read the same text, so the model parses it once.
- Flask routing, the server start-up and `jsonify` are not modelled. JSON decoding is not modelled either, so the model starts from the value `request.json` returns. Malformed JSON and a non-JSON content type make `request.json` raise an HTTP error, which Flask answers itself. A valid JSON value that is not an object is modelled, by `App.PublishRequest`.
- App.Json: NaN, infinity and minus infinity share the case `JNonFinite`, because the handler treats them alike. Finite floats are exact reals rather than binary doubles; the handler only tests them against zero.
- `run` is a parameter that returns or raises with some text. The exception's `str(e)` is that text.
- App.PublishMessage: the success response records the topic value. The `f"Published to topic {topic}"` formatting of non-string topics is not modelled.
- Text.Lower: lower-cases ASCII letters only. Python's `str.lower` also maps non-ASCII letters, so a non-ASCII spelling of a flag is not covered.
- Numerals.ParseInt: its own contract states only that blank text fails and that at most 4300 digits are accepted. Which texts it accepts and refuses is stated in both directions by `Numerals.ParseAccepted`, and the values it gives by `Numerals.ParseDigits`, `Numerals.ParsePlusDigits`, `Numerals.ParseShow` and `Numerals.ParsePadded`. It handles ASCII digits and ASCII white space only; Python's `int` also accepts other Unicode decimal digits and white space.
- Numerals.ParseInt: the digit limit is the default of 4300. A different limit set through `sys.set_int_max_str_digits` or `PYTHONINTMAXSTRDIGITS` is not modelled.
- Numerals.ShowInt: written without the 4300-digit limit that Python's `str` also applies. It serves only as the inverse of `int` here. For such numbers `Numerals.ParseShow` states that `int` refuses the text.
- The `__repr__` methods of `Type` and `Sensor` are debug output only and are not modelled.
- `write_to_influxDB.py` is not part of this model: it is database I/O.
- The random-value publishers, the subscriber test and `request_test.py` are not part of this model: they are scripts doing network I/O with random floating-point values.
- Integer bounds of the table are written as reals (`18` as `18.0`), so the distinction between Python `int` and `float` bounds is not modelled.

## Findings

| source | as written | input that shows it | evidently intended | confidence | as-written member | corrected member |
|---|---|---|---|---|---|---|
| swp24/mqtt-flask-app/publish.py:51-58 | with three user arguments (topic, message, QoS) and a valid QoS, the `else` branch reads `sys.argv[4]`, which does not exist, and raises `IndexError` | `["publish.py", "t", "m", "1"]` | a missing retain flag falls back to `False`, the default of `run`, as a missing QoS already falls back to 0 | medium, not executed | Publish.QosWithoutRetain | Publish.DispatchDefaultRetain, Publish.DefaultRetainPublishes |
