/** The socket.io client of era_5g_client/client_base.py: registration with a
    network application (connect with optional retry until a deadline, then one
    set-state control command), control commands and image sending.

    The socket is replaced by what it would report: each connect attempt is an
    `Attempt` (did it connect, how many seconds it took), the clock is an
    integer that a one-second sleep advances by 1, and everything the client
    does to the socket is appended to `trace`. */
module ClientBase {
  import opened Wrappers
  import opened Python
  import opened DataClasses

  /** The namespaces every connect attempt asks for. */
  const Namespaces: seq<string> := ["/data", "/control", "/results"]

  datatype ControlCmdType = SetState | GetState

  datatype ControlCommand = ControlCommand(cmdType: ControlCmdType, clearQueue: bool, data: map<string, Value>)

  /** The parameters an H.264 encoder is created with. */
  datatype EncoderSettings = EncoderSettings(fps: real, width: int, height: int)

  /** What the client does to its socket.io connection. */
  datatype SioEvent =
    | Connect(url: string, namespaces: seq<string>)
    | Call(event: string, command: ControlCommand, namespace: string)
    | Emit(event: string, data: Value, namespace: string)
    | Disconnected

  /** One connect attempt as the transport answers it. */
  datatype Attempt = Attempt(connects: bool, duration: nat)

  /** How the connect loop ends after `tries` attempts, or that the attempts
      given ran out while it was still retrying. */
  datatype LoopOutcome = Connected(tries: nat) | GaveUp(tries: nat) | Exhausted {
    function Shifted(n: nat): LoopOutcome {
      match this
      case Connected(k) => Connected(k + n)
      case GaveUp(k) => GaveUp(k + n)
      case Exhausted => Exhausted
    }
  }

  datatype RegisterResult = Registered | RegisterFailed(error: Exception) | StillRetrying

  /** The condition under which a failed attempt is raised instead of retried,
      read at clock value `now`; the deadline comparison is strict. */
  predicate GivesUp(wait: bool, timeout: int, start: int, now: int) {
    !wait || (timeout > 0 && start + timeout < now)
  }

  /** The connect loop, attempt by attempt, from clock value `now`. */
  function RetryLoop(script: seq<Attempt>, wait: bool, timeout: int, start: int, now: int): LoopOutcome
    decreases |script|
  {
    if script == [] then Exhausted
    else
      var t := now + script[0].duration;
      if script[0].connects then Connected(1)
      else if GivesUp(wait, timeout, start, t) then GaveUp(1)
      else RetryLoop(script[1..], wait, timeout, start, t + 1).Shifted(1)
  }

  function TotalDuration(script: seq<Attempt>): nat
    decreases |script|
  {
    if script == [] then 0 else script[0].duration + TotalDuration(script[1..])
  }

  /** The clock right after attempt `j` ends: the time all attempts up to `j`
      took, plus the one-second sleep that followed each earlier one. */
  function FailureTime(script: seq<Attempt>, now: int, j: nat): int
    requires j < |script|
  {
    now + TotalDuration(script[..j + 1]) + j
  }

  /** Attempt `j` failed and was followed by another one. */
  predicate Retries(script: seq<Attempt>, wait: bool, timeout: int, start: int, now: int, j: nat)
    requires j < |script|
  {
    !script[j].connects && !GivesUp(wait, timeout, start, FailureTime(script, now, j))
  }

  lemma FailureTimeShift(script: seq<Attempt>, now: int, j: nat)
    requires j + 1 < |script|
    ensures FailureTime(script[1..], now + script[0].duration + 1, j) == FailureTime(script, now, j + 1)
  {
    assert script[..j + 2][1..] == script[1..][..j + 1];
  }

  /** The loop stops at the first attempt that connects or whose failure
      meets the give-up condition, and every attempt before it was retried. */
  lemma {:induction false} RetryLoopCharacterized(script: seq<Attempt>, wait: bool, timeout: int, start: int, now: int)
    ensures match RetryLoop(script, wait, timeout, start, now)
      case Connected(k) =>
        1 <= k <= |script| && script[k - 1].connects &&
        forall j :: 0 <= j < k - 1 ==> Retries(script, wait, timeout, start, now, j)
      case GaveUp(k) =>
        1 <= k <= |script| && !script[k - 1].connects &&
        GivesUp(wait, timeout, start, FailureTime(script, now, k - 1)) &&
        forall j :: 0 <= j < k - 1 ==> Retries(script, wait, timeout, start, now, j)
      case Exhausted =>
        forall j :: 0 <= j < |script| ==> Retries(script, wait, timeout, start, now, j)
    decreases |script|
  {
    if script != [] {
      assert script[..1] == [script[0]] && script[..1][1..] == [];
      assert TotalDuration(script[..1]) == script[0].duration;
      assert FailureTime(script, now, 0) == now + script[0].duration;
      if !script[0].connects && !GivesUp(wait, timeout, start, now + script[0].duration) {
        var later := now + script[0].duration + 1;
        RetryLoopCharacterized(script[1..], wait, timeout, start, later);
        forall j | 1 <= j < |script|
          ensures FailureTime(script, now, j) == FailureTime(script[1..], later, j - 1)
          ensures Retries(script, wait, timeout, start, now, j) == Retries(script[1..], wait, timeout, start, later, j - 1)
        {
          FailureTimeShift(script, now, j - 1);
        }
      }
    }
  }

  /** The converse for success: if attempt `k` is the first to connect and
      every failure before it was retried, the loop connects on attempt `k`. */
  lemma ConnectsAtFirstSuccess(script: seq<Attempt>, wait: bool, timeout: int, start: int, now: int, k: nat)
    requires 1 <= k <= |script| && script[k - 1].connects
    requires forall j :: 0 <= j < k - 1 ==> Retries(script, wait, timeout, start, now, j)
    ensures RetryLoop(script, wait, timeout, start, now) == Connected(k)
  {
    RetryLoopCharacterized(script, wait, timeout, start, now);
    forall j | 0 <= j < k - 1
      ensures !script[j].connects && !GivesUp(wait, timeout, start, FailureTime(script, now, j))
    {
      assert Retries(script, wait, timeout, start, now, j);
    }
    assert !Retries(script, wait, timeout, start, now, k - 1);
  }

  /** The converse for failure: the loop raises at the first failed attempt
      that meets the give-up condition when every earlier one was retried. */
  lemma GivesUpAtFirstStop(script: seq<Attempt>, wait: bool, timeout: int, start: int, now: int, k: nat)
    requires 1 <= k <= |script| && !script[k - 1].connects
    requires GivesUp(wait, timeout, start, FailureTime(script, now, k - 1))
    requires forall j :: 0 <= j < k - 1 ==> Retries(script, wait, timeout, start, now, j)
    ensures RetryLoop(script, wait, timeout, start, now) == GaveUp(k)
  {
    RetryLoopCharacterized(script, wait, timeout, start, now);
    forall j | 0 <= j < k - 1
      ensures !script[j].connects && !GivesUp(wait, timeout, start, FailureTime(script, now, j))
    {
      assert Retries(script, wait, timeout, start, now, j);
    }
    assert !Retries(script, wait, timeout, start, now, k - 1);
  }

  /** Without `wait_until_available` the first failure is raised: there is
      never a second attempt. */
  lemma NoRetryWithoutWait(script: seq<Attempt>, timeout: int, start: int)
    requires script != []
    ensures RetryLoop(script, false, timeout, start, start) == if script[0].connects then Connected(1) else GaveUp(1)
  {
  }

  /** Waiting with a non-positive timeout never raises by itself: every
      failure is followed by a sleep and another attempt. */
  lemma {:induction false} WaitsForeverWithoutTimeout(script: seq<Attempt>, timeout: int, start: int, now: int)
    requires timeout <= 0
    ensures !RetryLoop(script, true, timeout, start, now).GaveUp?
    ensures RetryLoop(script, true, timeout, start, now).Connected? <==> exists j :: 0 <= j < |script| && script[j].connects
    decreases |script|
  {
    if script != [] && !script[0].connects {
      WaitsForeverWithoutTimeout(script[1..], timeout, start, now + script[0].duration + 1);
      assert forall j :: 1 <= j < |script| ==> script[j] == script[1..][j - 1];
      if exists j :: 0 <= j < |script| && script[j].connects {
        var j :| 0 <= j < |script| && script[j].connects;
        assert script[1..][j - 1].connects;
      }
    }
  }

  /** While waiting, the loop gives up only when the clock read after a
      failure is strictly past `start + timeout`, never at or before it. */
  lemma GiveUpOnlyAfterDeadline(script: seq<Attempt>, timeout: int, start: int)
    ensures var outcome := RetryLoop(script, true, timeout, start, start);
      outcome.GaveUp? ==>
        1 <= outcome.tries <= |script| && timeout > 0 &&
        start + timeout < FailureTime(script, start, outcome.tries - 1)
  {
    RetryLoopCharacterized(script, true, timeout, start, start);
  }

  /** While waiting, a failure at or before the deadline is retried: the loop
      does not stop at that attempt. */
  lemma FailureByDeadlineRetried(script: seq<Attempt>, timeout: int, start: int, j: nat)
    requires j < |script| && !script[j].connects
    requires FailureTime(script, start, j) <= start + timeout
    ensures RetryLoop(script, true, timeout, start, start) != GaveUp(j + 1)
  {
    RetryLoopCharacterized(script, true, timeout, start, start);
  }

  /** `args and args.get("h264") is True`. */
  predicate WantsH264(args: Option<map<string, Value>>) {
    args.Some? && args.value != map[] && "h264" in args.value && args.value["h264"] == Bool(true)
  }

  /** The encoder `register` creates from `args`: none unless H.264 is asked
      for; otherwise `float(fps)`, `int(width)`, `int(height)` in that order,
      the first failing lookup or conversion being raised. */
  function EncoderFor(args: Option<map<string, Value>>): (r: Result<Option<EncoderSettings>, Exception>)
    ensures !WantsH264(args) <==> r == Ok(None)
    ensures r.Ok? && r.value.Some? ==>
      args.Some? && "fps" in args.value && "width" in args.value && "height" in args.value &&
      ToFloat(args.value["fps"]) == Ok(r.value.value.fps) &&
      ToInt(args.value["width"]) == Ok(r.value.value.width) &&
      ToInt(args.value["height"]) == Ok(r.value.value.height)
  {
    if !WantsH264(args) then Ok(None)
    else
      var fps :- GetItem(Dict(args.value), "fps");
      var f :- ToFloat(fps);
      var width :- GetItem(Dict(args.value), "width");
      var w :- ToInt(width);
      var height :- GetItem(Dict(args.value), "height");
      var h :- ToInt(height);
      Ok(Some(EncoderSettings(f, w, h)))
  }

  /** Which lookup or conversion decides the outcome of `EncoderFor` when
      H.264 is asked for: the first of `fps`, `width`, `height` that is
      missing raises KeyError, the first that does not convert raises its
      conversion error, and when all three convert the encoder is created
      from them. */
  lemma EncoderForCharacterized(args: Option<map<string, Value>>)
    ensures WantsH264(args) && "fps" !in args.value ==> EncoderFor(args) == Err(KeyError(Str("fps")))
    ensures WantsH264(args) && "fps" in args.value && ToFloat(args.value["fps"]).Err? ==>
      EncoderFor(args) == Err(ToFloat(args.value["fps"]).error)
    ensures WantsH264(args) && "fps" in args.value && ToFloat(args.value["fps"]).Ok? ==>
      if "width" !in args.value then EncoderFor(args) == Err(KeyError(Str("width")))
      else if ToInt(args.value["width"]).Err? then EncoderFor(args) == Err(ToInt(args.value["width"]).error)
      else if "height" !in args.value then EncoderFor(args) == Err(KeyError(Str("height")))
      else if ToInt(args.value["height"]).Err? then EncoderFor(args) == Err(ToInt(args.value["height"]).error)
      else EncoderFor(args) == Ok(Some(EncoderSettings(ToFloat(args.value["fps"]).value,
                                                       ToInt(args.value["width"]).value,
                                                       ToInt(args.value["height"]).value)))
  {
  }

  /** The command that initialises the network application's state. */
  function SetStateCommand(args: Option<map<string, Value>>): (c: ControlCommand)
    ensures c.cmdType == SetState && c.clearQueue
    ensures c.data == if args.Some? then args.value else map[]
  {
    ControlCommand(SetState, true, if args.None? then map[] else args.value)
  }

  /** The dict an image is emitted as: always a timestamp and the frame, and
      the metadata only when it is a non-empty string. */
  function ImagePayload(timestamp: Option<int>, frame: Bytes, metadata: Option<string>): (p: map<string, Value>)
    ensures p.Keys == {"timestamp", "frame"} + (if metadata.Some? && metadata.value != "" then {"metadata"} else {})
    ensures p["timestamp"] == (if timestamp.Some? then Int(timestamp.value) else Null)
    ensures p["frame"] == ByteStr(frame)
    ensures "metadata" in p ==> p["metadata"] == Str(metadata.value)
  {
    var data := map["timestamp" := if timestamp.None? then Null else Int(timestamp.value), "frame" := ByteStr(frame)];
    if metadata.Some? && Truthy(Str(metadata.value)) then data["metadata" := Str(metadata.value)] else data
  }

  /** `k` connect attempts against `url`. */
  function ConnectTrace(url: string, k: nat): seq<SioEvent> {
    seq(k, _ => Connect(url, Namespaces))
  }

  class NetAppClientBase {
    var netappLocation: Option<NetAppLocation>
    var h264Encoder: Option<EncoderSettings>
    var trace: seq<SioEvent>

    constructor ()
      ensures netappLocation == None && h264Encoder == None && trace == []
    {
      netappLocation := None;
      h264Encoder := None;
      trace := [];
    }

    /** The `while True` connect loop: one attempt against `url` per
        round until one connects, the failure is raised or the attempts
        in `script` run out, ending as `RetryLoop` says. */
    method ConnectLoop(url: string, waitUntilAvailable: bool, waitTimeout: int, script: seq<Attempt>,
                       startTime: int) returns (outcome: LoopOutcome)
      modifies this`trace
      ensures outcome == RetryLoop(script, waitUntilAvailable, waitTimeout, startTime, startTime)
      ensures trace == old(trace) + ConnectTrace(url, if outcome.Exhausted? then |script| else outcome.tries)
    {
      var i, now := 0, startTime;
      ghost var expected := RetryLoop(script, waitUntilAvailable, waitTimeout, startTime, startTime);
      while true
        invariant 0 <= i <= |script|
        invariant trace == old(trace) + ConnectTrace(url, i)
        invariant RetryLoop(script[i..], waitUntilAvailable, waitTimeout, startTime, now).Shifted(i) == expected
        decreases |script| - i
      {
        if i == |script| {
          return Exhausted;
        }
        assert ConnectTrace(url, i) + [Connect(url, Namespaces)] == ConnectTrace(url, i + 1);
        trace := trace + [Connect(url, Namespaces)];
        assert script[i..][0] == script[i] && script[i..][1..] == script[i + 1..];
        now := now + script[i].duration;
        if script[i].connects {
          return Connected(i + 1);
        }
        if GivesUp(waitUntilAvailable, waitTimeout, startTime, now) {
          return GaveUp(i + 1);
        }
        now := now + 1;
        i := i + 1;
      }
    }

    /** Connects to the network application, retrying as `RetryLoop` says,
        then derives the encoder from `args` and sends the set-state command.
        `script` holds the attempts' outcomes and `startTime` the clock. */
    method Register(location: NetAppLocation, args: Option<map<string, Value>>, waitUntilAvailable: bool,
                    waitTimeout: int, script: seq<Attempt>, startTime: int) returns (r: RegisterResult)
      modifies this
      ensures netappLocation == Some(location)
      ensures match RetryLoop(script, waitUntilAvailable, waitTimeout, startTime, startTime)
        case Exhausted =>
          r == StillRetrying && trace == old(trace) + ConnectTrace(location.BuildApiEndpoint(""), |script|) &&
          h264Encoder == old(h264Encoder)
        case GaveUp(k) =>
          r == RegisterFailed(FailedToConnect(ConnectionRefused)) &&
          trace == old(trace) + ConnectTrace(location.BuildApiEndpoint(""), k) && h264Encoder == old(h264Encoder)
        case Connected(k) =>
          match EncoderFor(args)
          case Err(e) =>
            r == RegisterFailed(e) && trace == old(trace) + ConnectTrace(location.BuildApiEndpoint(""), k) &&
            h264Encoder == old(h264Encoder)
          case Ok(encoder) =>
            r == Registered &&
            trace == old(trace) + ConnectTrace(location.BuildApiEndpoint(""), k) +
                     [Call("command", SetStateCommand(args), "/control")] &&
            h264Encoder == if encoder.Some? then encoder else old(h264Encoder)
    {
      netappLocation := Some(location);
      var outcome := ConnectLoop(location.BuildApiEndpoint(""), waitUntilAvailable, waitTimeout, script, startTime);
      if outcome.Exhausted? {
        return StillRetrying;
      }
      if outcome.GaveUp? {
        return RegisterFailed(FailedToConnect(ConnectionRefused));
      }
      var settings := EncoderFor(args);
      if settings.Err? {
        return RegisterFailed(settings.error);
      }
      if settings.value.Some? {
        h264Encoder := settings.value;
      }
      SendControlCommand(SetStateCommand(args));
      r := Registered;
    }

    method Disconnect()
      modifies this`trace
      ensures trace == old(trace) + [Disconnected]
    {
      trace := trace + [Disconnected];
    }

    method SendControlCommand(command: ControlCommand)
      modifies this`trace
      ensures trace == old(trace) + [Call("command", command, "/control")]
    {
      trace := trace + [Call("command", command, "/control")];
    }

    /** Encodes a frame with the H.264 encoder when there is one and as
        base64 JPEG otherwise (`h264Frame`, `jpegFrame`: what each encoder
        returns, `None` when it raises) and emits it on `/data`; any failure
        disconnects first and is then raised unchanged. */
    method SendImageWs(timestamp: Option<int>, metadata: Option<string>, h264Frame: Option<Bytes>,
                       jpegFrame: Option<Bytes>, emitOk: bool) returns (r: Outcome<Exception>)
      modifies this`trace
      ensures var encoded := if h264Encoder.Some? then h264Frame else jpegFrame;
        if encoded.None? then
          r == Fail(if h264Encoder.Some? then H264EncoderError else EncodingError) &&
          trace == old(trace) + [Disconnected]
        else
          var sent := Emit("image", Dict(ImagePayload(timestamp, encoded.value, metadata)), "/data");
          if emitOk then r == Pass && trace == old(trace) + [sent]
          else r == Fail(TransportError) && trace == old(trace) + [sent, Disconnected]
    {
      var encoded: Bytes;
      if h264Encoder.Some? {
        if h264Frame.None? {
          Disconnect();
          return Fail(H264EncoderError);
        }
        encoded := h264Frame.value;
      } else {
        if jpegFrame.None? {
          Disconnect();
          return Fail(EncodingError);
        }
        encoded := jpegFrame.value;
      }
      var data := ImagePayload(timestamp, encoded, metadata);
      trace := trace + [Emit("image", Dict(data), "/data")];
      if !emitOk {
        Disconnect();
        return Fail(TransportError);
      }
      r := Pass;
    }
  }
}
