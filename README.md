# era_5g_client — a Dafny model of the network-application client

era_5g_client is the Python client a robot uses to reach a 5G network
application (a "NetApp"). It has two clients:

- `NetAppClientBase` connects over socket.io. It retries the connection until
  the application is available or a deadline passes. It then derives an
  H.264 encoder from the registration arguments, sends a set-state control
  command, and streams frames as JPEG or H.264.
- `NetAppClient` works through the middleware. It logs in, obtains an action
  plan, and checks that the reply is well formed. It takes the application's
  address from the resource checker, registers over HTTP, and opens a results
  socket with the session cookie. It posts JPEG frames in batches from a
  module-global buffer, and releases the plan's resources when it fails or
  disconnects.

The model replaces the network, the clock and the encoders with inputs, and
records everything the client sends:

- HTTP replies are `Body` values: empty, JSON, or undecodable.
- Each connect attempt is an `Attempt`. It says whether the attempt connected
  and how many seconds it took. The clock is an integer, and the one-second
  sleep adds 1 to it.
- Encoder results are `Option`s, where `None` means the encoder raised a
  failure.
- Whether an image post, a frame emit or the results-socket connect
  succeeds is a boolean. Every other HTTP request, and the control-command
  call, is taken to return normally.
- The middleware's answers are one `MiddlewareReplies` record.
- Requests and socket events are appended to a `log` (or `trace`) field.

Python's value semantics (`in`, subscription, `len`, truthiness, `str`,
`int`, `float` of an integral value, `rstrip`) are written out in module
`Python`. That is how the
validators reproduce the source's exact exception for each malformed reply.

Files:

- `wrappers.dfy`: Option, Result and Outcome.
- `decimal.dfy`: `str(int)` and its parser.
- `python.dfy`: values, exceptions and built-ins.
- `dataclasses.dfy`: the location records and their URLs.
- `client_base.dfy`: `NetAppClientBase`.
- `client.dfy`: `NetAppClient` and the image buffer.

The constructor's docstring (era_5g_client/client.py:62-66) promises
`FailedToConnect` when the middleware cannot be reached or the login fails.
The model follows the code, which is narrower:

- `gateway_login` translates only `KeyError` and its own raises. It raises
  `TypeError` when the reply is JSON but not a dict. It raises the JSON
  decoder's error when the reply is not JSON. `gateway_get_plan` behaves the
  same way for an undecodable reply.
- `connect_to_middleware` wraps every one of these in `FailedToConnect`.
  `LoginToken`, `PlanFields`, `ReadPlan` and `NetAppClient.TryBlockError`
  give the inner exception, and `NetAppClient.ConnectToMiddleware` states
  that it is raised as the cause of `FailedToConnect`.

## Model

| member | source | states |
|---|---|---|
| Decimal.NatToStringRoundTrip | era_5g_client/dataclasses.py:36 | Reading back the decimal text `str()` gives a natural number returns that number. |
| Decimal.IntToStringRoundTrip | era_5g_client/dataclasses.py:36 | The port text in a URL parses back to the port, negative ports included. |
| Decimal.NatToStringInjective | era_5g_client/client.py:236 | Distinct numbers have distinct decimal texts, so the image field names cannot collide. |
| Python.RStrip | era_5g_client/client.py:81 | The stored host is the longest prefix of the given host that does not end in `/`; only slashes were removed. |
| Python.RStripIdempotent | era_5g_client/client.py:81 | Stripping a host that was already stripped changes nothing. |
| Python.RStripUnique | era_5g_client/client.py:81 | Any prefix that has the three properties of the stripped host is the stripped host. |
| DataClasses.MiddlewareInfo.BuildApiEndpoint | era_5g_client/dataclasses.py:10-19 | Removing `http://` and `/<path>` from a middleware endpoint gives back the uri verbatim: nothing is trimmed or escaped. |
| DataClasses.NetAppLocation.BuildApiEndpoint | era_5g_client/dataclasses.py:27-36 | The URL is exactly `http://<uri>:<str(port)>/<path>`, and it determines the location it was built from, even when the uri contains colons. Reading it back accepts as the port only the `str()` numeral after the last colon of the authority. |
| DataClasses.AuthorityOfBuilt | era_5g_client/dataclasses.py:19 | For any authority `a`, removing the scheme and `/<path>` from `http://<a>/<path>` gives `a`. |
| DataClasses.NetAppUrlRoundTrip | era_5g_client/dataclasses.py:36 | The text `http://<uri>:<str(port)>/<path>` determines both `uri` and `port`. |
| DataClasses.LastColonBeforeNumeral | era_5g_client/dataclasses.py:36 | The colon written before the port is the last colon of the authority. |
| DataClasses.EmptyPathEndsWithSlash | era_5g_client/client_base.py:114-118 | The socket URL built with an empty path is the authority followed by a single `/`. |
| ClientBase.RetryLoopCharacterized | era_5g_client/client_base.py:112-124 | The connect loop stops at the first attempt that connects or that fails under the give-up condition, read on the clock after that attempt. Every earlier attempt failed and was retried. If the given attempts run out first, all of them were retried. |
| ClientBase.ConnectsAtFirstSuccess | era_5g_client/client_base.py:112-119 | Converse: if every earlier attempt was retried, the loop connects on the first attempt that succeeds. |
| ClientBase.GivesUpAtFirstStop | era_5g_client/client_base.py:120-122 | Converse: if every earlier attempt was retried, the loop raises at the first failure that meets the give-up condition. |
| ClientBase.NoRetryWithoutWait | era_5g_client/client_base.py:121-122 | Without `wait_until_available`, the first failed attempt is raised. |
| ClientBase.WaitsForeverWithoutTimeout | era_5g_client/client_base.py:95-99 | When waiting with a timeout of 0 or less, the loop never raises. It connects exactly when some attempt connects. |
| ClientBase.GiveUpOnlyAfterDeadline | era_5g_client/client_base.py:121 | While waiting, the loop gives up only when the timeout is positive and the clock is strictly past start plus timeout. |
| ClientBase.FailureByDeadlineRetried | era_5g_client/client_base.py:121-124 | While waiting, a failure at or before the deadline is never the attempt the loop gives up at. |
| ClientBase.EncoderFor | era_5g_client/client_base.py:127-128 | No encoder is created exactly when `args` does not ask for H.264. A created encoder comes from an `args` that has all of `fps`, `width` and `height`, and holds their `float`/`int` conversions. |
| ClientBase.EncoderForCharacterized | era_5g_client/client_base.py:127-128 | When H.264 is asked for, the lookups and conversions run in the order `fps`, `width`, `height`. The first key that is missing raises `KeyError` for that key. The first value that does not convert raises its conversion error. When all three convert, the encoder is created from them. |
| ClientBase.SetStateCommand | era_5g_client/client_base.py:130-134 | The initial command is a set-state command that clears the queue. It carries `args`, or an empty dict when there are none. |
| ClientBase.ImagePayload | era_5g_client/client_base.py:170-172 | The emitted dict always has `timestamp` and `frame`. It has `metadata` exactly when metadata is a non-empty str. |
| ClientBase.NetAppClientBase.constructor | era_5g_client/client_base.py:64-78 | A new client has no location, no encoder and no socket activity. |
| ClientBase.NetAppClientBase.ConnectLoop | era_5g_client/client_base.py:111-124 | The loop ends as `RetryLoop` says. It makes one connect attempt against the given URL, with the three namespaces, per round it runs. |
| ClientBase.NetAppClientBase.Register | era_5g_client/client_base.py:80-135 | It stores the location, makes exactly the connect attempts `RetryLoopCharacterized` describes, and raises `FailedToConnect` when the loop gives up. On success it raises any failure of `EncoderFor` and keeps a previous encoder when none is asked for. Otherwise it sends one set-state command. |
| ClientBase.NetAppClientBase.Disconnect | era_5g_client/client_base.py:137-139 | Disconnecting appends exactly one socket disconnect. |
| ClientBase.NetAppClientBase.SendControlCommand | era_5g_client/client_base.py:199-206 | A command is sent as one `command` call on `/control`, and nothing else happens. |
| ClientBase.NetAppClientBase.SendImageWs | era_5g_client/client_base.py:154-181 | The frame goes through the H.264 encoder when there is one, JPEG otherwise. It is emitted once on `/data`. An encoder or emit failure disconnects after the attempt and re-raises the same error. |
| Client.LoginToken | era_5g_client/client.py:253-270 | The login yields a token exactly when the reply is a dict with no `errors` whose `token` is a non-empty str, and the token is that str. A malformed dict raises `FailedToConnect`, other JSON `TypeError`, and non-JSON the decoder error. |
| Client.PlanFields | era_5g_client/client.py:278-289 | A JSON plan reply passes exactly when it is a dict with no 400/500 `statusCode` that has `ActionSequence` and `ActionPlanId`. Every other JSON reply raises `FailedToConnect`. |
| Client.ScanIdsCharacterized | era_5g_client/client.py:295-298 | The ids collected are the values before the first failing step, in order. The raised error is that step's error. |
| Client.ScanIdsSnoc | era_5g_client/client.py:295-298 | A step after a run with no failure adds its id, or stops the loop with its error. |
| Client.ScanIdsStops | era_5g_client/client.py:295-298 | Nothing after the first failing step is looked at. |
| Client.WellFormedPlanYieldsAllIds | era_5g_client/client.py:292-298 | On a list of dicts with str `Id`s, the loop raises nothing and collects every id in order. |
| Client.StepIdCases | era_5g_client/client.py:296-302 | On a list action sequence, a step yields its id exactly when it is a dict with a str `Id`. A dict step without `Id` raises `FailedToConnect`, and every other malformed step raises `TypeError`. The characters of a str sequence and the bytes of a bytes sequence raise `TypeError`. A dict action sequence raises `FailedToConnect` for the missing int key. |
| Client.ReadPlanMissingId | era_5g_client/client.py:295-302 | When the first malformed step of a list plan is a dict without `Id`, the plan raises `FailedToConnect` for the missing `Id` after appending exactly the ids of the steps before it. |
| Client.ReadPlan | era_5g_client/client.py:272-302 | An accepted plan reply has recorded both its plan id and its length, and what is returned is the decoded reply itself. |
| Client.ReadPlanCharacterized | era_5g_client/client.py:278-302 | A reply rejected by the field checks or by `len` raises that error. The plan id is recorded exactly when the field checks pass, and the length exactly when the action sequence also has a `len`. The ids appended are those of the leading steps that have an id, all of them read in order. The reply is accepted exactly when every step has one. Otherwise the error is the first failing step's. |
| Client.ReadPlanOnList | era_5g_client/client.py:292-298 | A plan whose action sequence is a list is accepted exactly when every step is a dict with a str `Id`. Then every step's id is appended, in order. For example, the sequence `[7]` is rejected. |
| Client.RegisterReplyCheck | era_5g_client/client.py:151-159 | An empty body passes. A body that is not JSON raises `FailedToConnect`. A JSON dict passes exactly when it has no `error`, and otherwise carries that error. |
| Client.BatchFilesInOrder | era_5g_client/client.py:236-238 | A batch posts one file per buffered image, in buffer order, named `image1`..`imageN` with no repeated name. The timestamps are in the same order. |
| Client.SendImageStep | era_5g_client/client.py:230-233 | From below the batch size, one call stores exactly the new image and never passes the batch size. A buffer already past it is left unchanged. |
| Client.SendAllBatchesFull | era_5g_client/client.py:230-240 | With one batch size and successful posts, every posted batch is full and the buffer stays below the batch size. |
| Client.SendAllLosesNothing | era_5g_client/client.py:226-240 | With one batch size and successful posts, the posted batches followed by the buffer are exactly the images sent, in order. Every batch is full and the buffer stays below the batch size. |
| Client.ImageBuffer.constructor | era_5g_client/client.py:14 | The shared buffer starts empty. |
| Client.NetAppClient.constructor | era_5g_client/client.py:76-97 | Every field as `__init__` sets it (`Initialized`), with the host right-stripped of `/`, and no request sent. |
| Client.NetAppClient.Create | era_5g_client/client.py:76-99 | Every field is as the constructor sets it, on both paths. With the middleware, construction always fails at the plan-id guard, before any request or resource deletion. Without it, construction succeeds. |
| Client.NetAppClient.BuildMiddlewareApiEndpoint | era_5g_client/client.py:182-190 | The same URL as `MiddlewareInfo.build_api_endpoint` for the stored host; `http://None/<path>` when there is no host. |
| Client.NetAppClient.BuildNetAppApiEndpoint | era_5g_client/client.py:192-200 | The same URL as `NetAppLocation.build_api_endpoint` when host and port are both set. |
| Client.NetAppClient.ConnectToMiddleware | era_5g_client/client.py:101-127 | Without a plan id it raises before any change. Otherwise it succeeds exactly when the login and the plan are accepted and, when it waits for the application, the checker is ready. A login failure is raised as `FailedToConnect` after the login request and the resource deletion, and changes no other field. After a successful login, the token is set and the plan id, length and step ids are those `PlanRecorded` gives. A rejected plan leaves the plan and the checker as they were, and an accepted one leaves the state `JoinedPlan` describes. Any failure after the login ends with the deletion of the plan's resources `PlanDeletion` computes from that state, is raised as `FailedToConnect` whose cause is exactly the exception `TryBlockError` gives: the plan's error or `NetAppNotReady`. It leaves the address unchanged. |
| Client.NetAppClient.JoinMiddleware | era_5g_client/client.py:106-124 | The `try` block succeeds exactly when `MiddlewareAccepts` holds. A login failure changes only the log. After a successful login the token is set, the login and plan requests are logged, and the plan fields are as `PlanRecorded` gives. A rejected plan leaves the plan and the checker as they were. An accepted one leaves the state `JoinedPlan` describes even when the later wait fails. Every failure raises exactly the exception `TryBlockError` gives. The address changes exactly when it succeeds while it waits for the application. |
| Client.NetAppClient.TryBlockError | era_5g_client/client.py:106-124 | No exception exactly when `MiddlewareAccepts` holds. Otherwise it is the login's error, then the plan's error (`ReadPlan`), then, while waiting for the application, `NetAppNotReady` from a checker that does not report ready. |
| Client.NetAppClient.JoinPlan | era_5g_client/client.py:108-119 | Success comes exactly when the login and the plan are accepted. A login failure changes only the log. After a successful login the plan fields are as `PlanRecorded` gives, including on a plan failure, which returns the plan's error and leaves the plan and the checker as they were. Success leaves the token, plan, plan id, length, step ids and resource checker that the replies determine. |
| Client.NetAppClient.AwaitNetApp | era_5g_client/client.py:120-123 | When it waits for the application, it raises `NetAppNotReady` without a checker or when the checker is not ready, and otherwise takes the checker's address with port 5896. When it does not wait, it passes and changes nothing. |
| Client.NetAppClient.Register | era_5g_client/client.py:129-171 | The middleware guards raise `NetAppNotReady` before any request. Then it sends one register request and applies `RegisterReplyCheck`. A missing session cookie raises `KeyError`. Otherwise it stores the cookie and opens the `/results` socket with `session=<cookie>`. |
| Client.NetAppClient.Disconnect | era_5g_client/client.py:173-180 | It unregisters only when host and port are both set, always closes the socket, and releases the plan only with the middleware. |
| Client.NetAppClient.SendImage | era_5g_client/client.py:215-240 | A batch size below 1 fails before anything happens. The image is stored only while the buffer is short. Exactly a full buffer is posted, and it is cleared only after a successful post. |
| Client.NetAppClient.WaitUntilNetAppReady | era_5g_client/client.py:242-245 | It raises `NetAppNotReady` exactly when there is no resource checker. |
| Client.NetAppClient.LoadNetAppUri | era_5g_client/client.py:247-251 | A ready checker sets the address to its URL and port 5896. Otherwise it raises `NetAppNotReady` and the address is unchanged. |
| Client.NetAppClient.GatewayLogin | era_5g_client/client.py:253-270 | It sends one login post with `Id` and `Password`, and the result is `LoginToken` of the reply. |
| Client.NetAppClient.FetchPlan | era_5g_client/client.py:110-119 | Once a token is held, it sends one plan request and leaves the plan fields as `PlanRecorded` gives. A rejected plan returns its error and leaves the plan and the checker as they were. An accepted plan stores the reply and starts a resource checker on the token, the recorded plan id and the orchestration endpoint. |
| Client.NetAppClient.AppendStepIds | era_5g_client/client.py:295-298 | A for loop over the first `n` steps, proved equal to `ScanIds` of the step lookups: it appends exactly the ids before the first step without one, and returns that step's error or none. |
| Client.NetAppClient.GatewayGetPlan | era_5g_client/client.py:272-302 | It sends one plan post with a bearer token. It returns what `ReadPlan` returns and leaves the fields `PlanRecorded` describes: the plan id and the length `ReadPlan` records, each unchanged where none is recorded, and `actionSeqIds` grown by exactly the ids `ReadPlan` reads. |
| Client.NetAppClient.DeleteAllResources | era_5g_client/client.py:304-318 | It sends one plan deletion with a bearer header when token and plan id are both set, and nothing otherwise. |

## Left out

- Socket.io callbacks (`sio.on` bindings, `on_connect_event`, `on_connect_error`, results and error events) are left out: they are invoked by the transport, not by the client's logic.
- `wait` is left out: it is a blocking call into the socket library.
- Logging and `print` output are left out.
- `send_image_ws_raw` and `send_json_ws` are left out: each is a single emit with no logic of its own.
- `delete_single_resource` is left out: it only raises `NotImplementedError`.
- `gateway_log_off` is left out: it only prints.
- The `MiddlewareResourceChecker` thread (polling, `is_ready`, `url`) is not part of this model. Its readiness and URL are inputs.
- `WaitUntilNetAppReady`'s blocking wait on the checker is not modelled: only its guard is.
- The `NETAPP_PORT` environment override is not modelled: the port is the default 5896.
- The socket.io `wait_timeout=10` of each connect is not modelled: an attempt's duration is an input.
- The body of a socket.io call's reply is not modelled.
- HTTP status codes of the register, image post and delete replies are not modelled; the source does not act on them, apart from printing.
- `requests.HTTPError` is not modelled: the client never calls `raise_for_status`, so its `except HTTPError` branches cannot be reached.
- OpenCV, base64 and H.264 encoding are replaced by their result or failure.
- ClientBase.NetAppClientBase.Register: the `H264Encoder(...)` constructor itself (era_5g_client/client_base.py:128) is taken never to raise. Once the three conversions succeed, the encoder is always created.
- ClientBase.NetAppClientBase.Register: an unbounded retry loop is modelled as `StillRetrying` once the given attempts run out. The loop itself does not terminate, so the script bounds it.
- Python.ToFloat: it accepts only the integral values and numerals the model has. Floating-point values, fractional numerals and the whitespace/underscore forms of `int()` are left out.
- Python.Text: `str()` of a list, dict or bytes is a fixed placeholder. Such a value is printed only when a non-scalar `ActionPlanId` is turned into the deletion URL.
- Client.NetAppClient.BuildNetAppApiEndpoint: the contract speaks only of a host and port that are both set. With either unset, the body writes `None` in its place, as the f-string does.
- Client.RegisterReplyCheck: for JSON that is not a dict (for example `null` or a list), the contract does not state which Python error `"error" in data` raises; the body models it.
- Exceptions raised by the HTTP calls are not modelled. These are the register and unregister GETs (era_5g_client/client.py:149, 177), the login and plan posts (:257, :278) and the plan DELETE (:311), together with a failing or timed-out `sio.call` of a control command (era_5g_client/client_base.py:206). Each of these requests returns here. The cases this leaves out are: an unregister that raises in `disconnect` leaves the socket open and the plan unreleased; a DELETE that raises inside `connect_to_middleware`'s handler replaces its `FailedToConnect`; and a call that times out makes `register` raise.
- `Python.Value` has no floating-point numbers. A reply such as `"statusCode": 500.0`, which Python compares equal to 500, or an `fps` of 29.97 cannot be written.
- Client.NetAppClient.Create: `results_event` and the two socket/session objects are not modelled.
- The module-global image buffer is an explicit `ImageBuffer` object passed to `SendImage`. Several clients share it only when they are given the same object.
