# Webex xAPI command runner, modelled in Dafny

The runner is a command-line client for the Webex REST API. It fetches every
device registered to an organisation and keeps the devices that carry a given
tag. Then it posts one xAPI command to each of them and reports which devices
succeeded and which failed. This project models the logic around the HTTP
calls. The network is abstracted away: the server's replies are parameters.

- **Device fetch** (`get_devices`). A `while url:` loop over the GET
  replies. It appends each page's `items` and follows the `next` link until
  none is left. The server is a finite sequence of page replies, and a page
  may also fail.
- **Tag filter** (`filter_devices_by_tag`). A loop that keeps, in order, the
  devices whose `tags` list contains the tag. Matching is exact string
  equality, and a device with no `tags` field has no tags.
- **Command-string parser** (`parse_xapi_command`). Python's
  `split(None, 1)` and `strip()`, using Python's own whitespace set. The
  argument text is returned raw. The JSON check only decides whether a
  warning is printed, which the model returns as a flag.
- **Dispatch** (`execute_xapi_command`). The payload always has `deviceId`.
  It gets `arguments` only when the arguments are truthy; a string argument
  is replaced by its JSON parse when it has one. A 200 reply yields the parsed
  body. Any other status yields `{error: "Command failed with status N",
  details: body}` as a returned value, and the status can be read back from
  it. `json.loads` is an abstract function that either returns a value or
  raises with a message. The POST is a function from request to reply.
- **Orchestration** (`run_command_on_tagged_devices`). Fetch, filter, stop
  early if nothing matched, and otherwise dispatch to every matching device
  once, in order. Each device's entry goes to `failed` or `successful`. The
  model returns the list of POSTs it made, so "no dispatch" and "each device
  once, in order" can be stated.

The model follows Python's behaviour inside the `try` block:

- `"error" in result` depends on the type of the result. For a dict it tests
  for the key. For a list it tests for an element equal to `"error"`. For a
  string it tests for a substring. For a scalar it raises a `TypeError`.
- Printing `result['error']` raises a `TypeError` for a list or a string.
- A body that claims status 200 but is not valid JSON raises inside the
  `try`.
- Every one of these exceptions lands in `failed` with its message.

Behaviour of the code worth noting:

- There is no `key:value` argument coercion. `Level:50` is passed through as
  the raw text `"Level:50"`. Only the comment at webex_xapi_runner.py:204-205
  mentions a coercion.
- An argument string that is not JSON is passed on as that raw string.
- A tag matches only when it is an equal element of the `tags` list.
- The arguments are left out of the payload whenever they are falsy (Python
  truthiness), which includes the empty string and the empty dict.

The modules are `Wrappers` (Option/Result), `Json` (JSON-shaped values and
truthiness), `Devices`, `CommandString`, `Dispatcher` and `Runner`.

## Model

| member | source | states |
|---|---|---|
| `Devices.FilterDevicesByTag` | webex_xapi_runner.py:63-71 | the loop returns exactly `Tagged(devices, tag)`, the in-order selection of tagged devices |
| `Devices.TaggedMembership` | webex_xapi_runner.py:65-69 | a device is selected if and only if it is in the input and its tags contain the tag; a device without a tags field is never selected |
| `Devices.TaggedMultiplicity` | webex_xapi_runner.py:65-69 | each tagged device occurs in the result exactly as often as in the input, every other device zero times |
| `Devices.TaggedConcat` | webex_xapi_runner.py:63-71 | filtering distributes over concatenation, so the input order is kept |
| `Devices.TaggedIdempotent` | webex_xapi_runner.py:63-71 | filtering a filtered list by the same tag changes nothing |
| `CommandString.SplitOnce` | webex_xapi_runner.py:192 | `split(None, 1)` gives no part exactly for an all-whitespace string; the first part is a non-empty token without whitespace; a second part is non-empty and starts with non-whitespace |
| `CommandString.Strip` | webex_xapi_runner.py:198 | `strip()` is empty exactly for an all-whitespace string, and otherwise neither starts nor ends with whitespace |
| `CommandString.StripPadded` | webex_xapi_runner.py:198 | stripping a trimmed text padded with whitespace on both sides returns that text |
| `CommandString.StripSplit` | webex_xapi_runner.py:198 | every string is its stripped form with whitespace runs on either side |
| `CommandString.SplitOnceShape` | webex_xapi_runner.py:192 | leading whitespace, a token, a gap and a rest split into exactly the token and the rest |
| `CommandString.SplitOnceDecomposition` | webex_xapi_runner.py:192 | conversely, each split comes from a string of that shape |
| `CommandString.ParseCommand` | webex_xapi_runner.py:192-208 | fails, with the `IndexError` of `parts[0]`, exactly on empty or all-whitespace input; the name is a non-empty token without whitespace; present arguments are trimmed; the warning is raised exactly when arguments are present and do not parse as JSON |
| `CommandString.ParseBareName` | webex_xapi_runner.py:192-196 | a token with only whitespace around it parses to that name, no arguments and no warning |
| `CommandString.ParseNameAndArguments` | webex_xapi_runner.py:192-206 | name, gap and trimmed argument text, padded with whitespace, parse back to that name and that exact raw text, with or without valid JSON |
| `CommandString.ParseSpaceSeparated` | webex_xapi_runner.py:192-206 | a name and a trimmed argument text joined by one space parse back to that name and that exact text |
| `CommandString.ParseDecomposition` | webex_xapi_runner.py:192-198 | every successful parse comes from whitespace, the name, and either whitespace alone or a gap, the arguments and whitespace |
| `CommandString.ArgumentsIgnoreJsonCheck` | webex_xapi_runner.py:199-206 | the name and arguments returned do not depend on what the JSON parser says |
| `CommandString.ParseBootExample` | webex_xapi_runner.py:186 | `SystemUnit.Boot` parses to that name with no arguments |
| `CommandString.ParseJsonArgumentsExample` | webex_xapi_runner.py:218 | `Audio.Volume.Set {"Level": 50}` parses to the name and the raw text `{"Level": 50}` |
| `CommandString.ParseKeyValueExample` | webex_xapi_runner.py:204-206 | `Audio.Volume.Set Level:50` keeps `Level:50` as raw text; there is no coercion |
| `Json.Truthy` | webex_xapi_runner.py:92 | `if arguments:` is false exactly for the false value of each type: None, False, zero, and the empty string, list and dict |
| `CommandString.PythonWhitespace` | webex_xapi_runner.py:192-198 | `CommandString.IsSpace`, the whitespace of `split(None, 1)` and `strip()`, is on ASCII exactly space, tab, newline, carriage return, vertical tab, form feed and U+001C..U+001F; all of it lies in U+0009..U+3000; the zero-width space and the byte order mark are not whitespace |
| `Dispatcher.Payload` | webex_xapi_runner.py:88-102 | the body always holds `deviceId`; it holds `arguments` if and only if the arguments are truthy; a string argument becomes its JSON parse when it has one and stays raw otherwise; other values pass unchanged; no other key |
| `Dispatcher.DecimalString` | webex_xapi_runner.py:114 | the status code is written as a non-empty string of decimal digits |
| `Dispatcher.DecimalRoundTrip` | webex_xapi_runner.py:114 | reading the written digits back gives the status code |
| `Dispatcher.FailureObjectCarriesStatus` | webex_xapi_runner.py:113-116 | the failure value has an `error` key from which the status code reads back, and `details` equal to the raw body text |
| `Dispatcher.Classify` | webex_xapi_runner.py:110-116 | status 200 returns the parsed body, or raises when the body is not JSON; any other status returns, without raising, a value carrying the status and the raw body; a transport exception escapes with its message |
| `Dispatcher.NotFoundExample` | webex_xapi_runner.py:110-116 | a 404 with body `not found` is returned, not raised, and carries 404 and the body |
| `Dispatcher.ExecuteCommand` | webex_xapi_runner.py:86-116 | posts exactly one request, to the command's URL with the payload above, and returns the classification of its reply |
| `Runner.StopIndex` | webex_xapi_runner.py:40-48 | the last page requested is the first page without a non-empty next link |
| `Runner.GetDevices` | webex_xapi_runner.py:37-50 | returns the concatenated items of the pages up to the first without a next link, in page order, or the first page failure; makes exactly StopIndex + 1 requests |
| `Runner.ItemsOfConcat` | webex_xapi_runner.py:45 | accumulating items distributes over page sequences |
| `Runner.FetchedUnfolds` | webex_xapi_runner.py:40-50 | the first page's items come first, and later pages are fetched only when its next link is present |
| `Runner.FetchedIgnoresLaterPages` | webex_xapi_runner.py:40-48 | pages after the first one without a next link have no effect |
| `Runner.TwoPagesExample` | webex_xapi_runner.py:37-50 | two pages linked by a next link give the first page's items followed by the second's |
| `Runner.DeviceOutcome` | webex_xapi_runner.py:148-176 | the entry carries the display name (default `Unknown`) and the id; it is a success exactly when the call returned and `"error" in result` is false; a raised exception becomes a failure carrying its message; a `TypeError` from `"error" in result` or from `result['error']` becomes a failure carrying that message; a dict with an `error` key is recorded as the failure detail |
| `Runner.HasErrorKey` | webex_xapi_runner.py:156 | `"error" in result` answers for a dict, a list and a string and raises for every scalar; a dict answers by key, a list by an element equal to `"error"`, a string by an occurrence of `error` at some index |
| `Runner.SubstringOccurs` | webex_xapi_runner.py:156 | the substring test used for a string result holds exactly when `error` occurs at some index |
| `Runner.ErrorLookupFailure` | webex_xapi_runner.py:157 | `result['error']` raises a `TypeError` for every value that is not a dict, and never for a dict with an `error` key |
| `Runner.PartitionCount` | webex_xapi_runner.py:142-177 | the sizes of `successful` and `failed` add up to the number of devices |
| `Runner.PartitionConcat` | webex_xapi_runner.py:147-177 | each list keeps device order, and the results for a list are those of its parts joined |
| `Runner.PartitionMembers` | webex_xapi_runner.py:156-176 | an entry is in `successful` exactly when it came from a success, and in `failed` exactly when it came from a failure |
| `Runner.PartitionIds` | webex_xapi_runner.py:147-177 | the two lists together hold the ids of all entries with their multiplicities |
| `Runner.EveryDeviceOnce` | webex_xapi_runner.py:147-177 | every dispatched device appears exactly once across `successful` and `failed` |
| `Runner.SuccessesHaveNoError` | webex_xapi_runner.py:156-169 | everything in `successful` passed the `"error" in result` test |
| `Runner.NonOkStatusFails` | webex_xapi_runner.py:154-162 | a non-200 reply always puts the device in `failed` with the failure value for that status |
| `Runner.ConnectionFailureFails` | webex_xapi_runner.py:170-176 | a transport exception puts the device in `failed` with the exception message |
| `Runner.FailureIsolation` | webex_xapi_runner.py:147-177 | one device's failure does not change the entries of the others |
| `Runner.DispatchOne` | webex_xapi_runner.py:147-176 | one pass of the loop posts that device's request and appends its entry to the list its outcome names |
| `Runner.DispatchAll` | webex_xapi_runner.py:142-177 | the loop dispatches once per device, in order, and its results are the partition of the devices' outcomes |
| `Runner.RunCommandOnTaggedDevices` | webex_xapi_runner.py:130-178 | a fetch failure escapes with no dispatch; no matching device gives empty lists and no dispatch; otherwise one request per filtered device, in order, and the partition of their outcomes |
| `Runner.CommandArguments` | webex_xapi_runner.py:282 | `command_args if command_args else None` passes a non-empty argument text on unchanged and turns a missing or empty one into `None` |
| `Runner.ParsedArgumentsReachPayload` | webex_xapi_runner.py:92-102 | argument text from the parser reaches the payload exactly when present: as its JSON parse, or raw and with the warning raised |

## Left out

- HTTP traffic (`requests.get`, `requests.post`, `raise_for_status`, the `Link` header parsing in `response.links`) is foreign library code. GET replies are a sequence of page replies; the POST is a function from request to reply.
- `json.loads` and `response.json()` are foreign library code. They are the abstract `JsonLoader` parameter, not a JSON parser.
- The POST model gives the same reply to the same request, which a real server need not do. Timing-dependent replies are not modelled.
- All `print` output, the result formatting and `json.dumps` are console I/O. The one print whose evaluation can raise, `result['error']`, is modelled.
- `main` is command-line glue: argparse, the token lookup in the environment, `sys.exit` codes. The single line that passes the parsed arguments on (`command_args if command_args else None`) is modelled as `Runner.CommandArguments`.
- The access token and the headers built in `__init__` are constant configuration. The base URL is kept as a constant.
- Termination of pagination against a real server is up to the server. The model assumes a finite reply sequence whose last page has no next link.
- A device record is reduced to `id`, `displayName` and `tags`. A field present with the value `null` is not distinguished from a missing one, and a `tags` value that is not a list is not modelled. This changes two outcomes. With `"tags": null`, `tag in tags` raises a `TypeError` that aborts the whole run, while the model treats the device as having no tags. With `"displayName": null`, the entry's name is `None`, while the model records `Unknown`.
- Page bodies of other shapes are not modelled. The page sequence must give `PageFailed` for a page whose effect was an exception: a body that is not a JSON object makes `data.get` raise an `AttributeError`, and an `items` of `null` makes `devices.extend` raise a `TypeError`. An `items` that is a dict or a string would add its keys or its characters to the device list; `PageReply` cannot represent such a page, so that behaviour is not modelled.
- `json.loads` can also raise exceptions other than `JSONDecodeError` and `ValueError`, such as `RecursionError` on deeply nested input. Those escape the handlers in `execute_xapi_command` and `parse_xapi_command`. The model treats every `JsonLoader` failure as a caught decoding error.
- Floating-point numbers are kept as exact decimals (`mantissa * 10^exponent`); binary rounding is not modelled.
- The `TypeError` messages in `Runner.HasErrorKey` and `Runner.ErrorLookupFailure` are those of Python 3.11 to 3.13; other versions word them differently. Either way such an entry goes to `failed`.
