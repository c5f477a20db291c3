/** The middleware-aware HTTP client of era_5g_client/client.py.

    HTTP and socket.io are replaced by what they would return: a reply body is
    a `Body`, the resource checker's readiness and resolved URI are inputs, and
    every request the client issues is appended to `log`. The module-global
    image buffer is an `ImageBuffer` object that `send_image` is given on
    each call; clients share it exactly when they are given the same one. */
module Client {
  import opened Wrappers
  import opened Python
  import opened DataClasses
  import Decimal

  /** The network application's port (NETAPP_PORT when the environment does
      not override it). */
  const NetAppPort: int := 5896

  const PlanPath: string := "orchestrate/orchestrate/plan"

  /** A reply body: empty, decodable JSON, or content `json()` rejects. */
  datatype Body = Empty | Json(value: Value) | NotJson

  datatype Response = Response(body: Body, cookies: map<string, string>)

  /** One `("files", (name, content, "image/jpeg"))` entry of an image post. */
  datatype ImageFile = ImageFile(name: string, content: Bytes)

  /** What the client sends over HTTP or socket.io. */
  datatype Request =
    | Get(url: string, params: Option<map<string, Value>>)
    | PostJson(url: string, json: Value, authorization: Option<string>)
    | PostImages(url: string, files: seq<ImageFile>, timestamps: seq<Option<string>>)
    | Delete(url: string, bearer: string)
    | SioConnect(url: string, namespaces: seq<string>, cookie: string)
    | SioDisconnect

  /** The arguments the background resource checker is started with. */
  datatype ResourceChecker = ResourceChecker(token: string, planId: Value, url: string)

  /** What the middleware answers during `connect_to_middleware`: the login
      and plan replies, and whether the checker reports the network
      application ready, with the URI it resolved. */
  datatype MiddlewareReplies = MiddlewareReplies(login: Body, plan: Body, ready: bool, netappUri: string)

  datatype BufferedImage = BufferedImage(image: Bytes, timestamp: Option<string>)

  /** The `except KeyError` of the gateway calls: a missing key is raised as
      FailedToConnect; every other exception passes through. */
  function CatchKeyError<T>(r: Result<T, Exception>): Result<T, Exception> {
    if r.Err? && r.error.KeyError? then Err(FailedToConnect(MissingKey(r.error.key))) else r
  }

  /** `r.json()`. */
  function DecodeJson(reply: Body): Result<Value, Exception> {
    if reply.Json? then Ok(reply.value) else Err(JSONDecodeError)
  }

  function ReadLoginReply(reply: Body): Result<string, Exception> {
    var response :- DecodeJson(reply);
    var hasErrors :- Contains(response, "errors");
    if hasErrors then
      var errors :- GetItem(response, "errors");
      Err(FailedToConnect(LoginErrors(errors)))
    else
      var token :- GetItem(response, "token");
      if !token.Str? || !Truthy(token) then Err(FailedToConnect(InvalidToken)) else Ok(token.s)
  }

  /** What `gateway_login` makes of the login reply: the token exactly when
      the reply is a dict without `errors` holding a non-empty str `token`;
      a malformed dict raises FailedToConnect, other JSON a TypeError, and a
      body that is not JSON a JSONDecodeError. */
  function LoginToken(reply: Body): (r: Result<string, Exception>)
    ensures r.Ok? <==>
      reply.Json? && reply.value.Dict? && "errors" !in reply.value.fields &&
      "token" in reply.value.fields && reply.value.fields["token"].Str? && reply.value.fields["token"].s != ""
    ensures r.Ok? ==> r.value == reply.value.fields["token"].s
    ensures reply.Json? && reply.value.Dict? && r.Err? ==> r.error.FailedToConnect?
    ensures reply.Json? && !reply.value.Dict? ==> r == Err(TypeError)
    ensures !reply.Json? ==> r == Err(JSONDecodeError)
  {
    CatchKeyError(ReadLoginReply(reply))
  }

  /** `statusCode` is present and is 400 or 500. */
  predicate HasErrorStatus(m: map<string, Value>) {
    "statusCode" in m && (m["statusCode"] == Int(500) || m["statusCode"] == Int(400))
  }

  function ReadPlanReply(reply: Body): Result<(Value, Value), Exception> {
    var response :- DecodeJson(reply);
    if !response.Dict? then Err(FailedToConnect(InvalidResponse))
    else if HasErrorStatus(response.fields) then
      var message :- GetItem(response, "message");
      Err(FailedToConnect(ErrorStatus(response.fields["statusCode"], message)))
    else
      var steps :- GetItem(response, "ActionSequence");
      var planId :- GetItem(response, "ActionPlanId");
      Ok((steps, planId))
  }

  /** The checks `gateway_get_plan` makes before it changes any field: a JSON
      reply passes exactly when it is a dict without an error status that has
      both `ActionSequence` and `ActionPlanId`, and every other JSON reply
      raises FailedToConnect. */
  function PlanFields(reply: Body): (r: Result<(Value, Value), Exception>)
    ensures !reply.Json? ==> r == Err(JSONDecodeError)
    ensures reply.Json? ==>
      (r.Ok? <==>
        reply.value.Dict? && !HasErrorStatus(reply.value.fields) &&
        "ActionSequence" in reply.value.fields && "ActionPlanId" in reply.value.fields)
    ensures r.Ok? ==> r.value == (reply.value.fields["ActionSequence"], reply.value.fields["ActionPlanId"])
    ensures reply.Json? && r.Err? ==> r.error.FailedToConnect?
  {
    CatchKeyError(ReadPlanReply(reply))
  }

  function ReadStepId(steps: Value, x: nat): Result<string, Exception> {
    var step :- ItemAt(steps, x);
    var id :- GetItem(step, "Id");
    if id.Str? then Ok(id.s) else Err(TypeError)
  }

  /** `action_sequence[x]["Id"]`, which has to be a str to be printed. */
  function StepId(steps: Value, x: nat): Result<string, Exception> {
    CatchKeyError(ReadStepId(steps, x))
  }

  /** On a list, a step yields its id exactly when it is a dict with a str
      `Id`; a dict step without `Id` raises FailedToConnect, and any other
      step raises TypeError (from the subscript or from the concatenation).
      A dict action sequence has no int keys, so its steps raise
      FailedToConnect. */
  lemma StepIdCases(steps: Value, x: nat)
    ensures var r := StepId(steps, x);
      steps.List? && x < |steps.items| ==>
        var step := steps.items[x];
        (r.Ok? <==> step.Dict? && "Id" in step.fields && step.fields["Id"].Str?) &&
        (r.Ok? ==> r.value == step.fields["Id"].s) &&
        (step.Dict? && "Id" !in step.fields ==> r == Err(FailedToConnect(MissingKey(Str("Id"))))) &&
        (!(step.Dict? && "Id" !in step.fields) && r.Err? ==> r.error == TypeError)
    ensures (steps.Str? && x < |steps.s|) || (steps.ByteStr? && x < |steps.data|) ==> StepId(steps, x) == Err(TypeError)
    ensures steps.Dict? ==> StepId(steps, x) == Err(FailedToConnect(MissingKey(Int(x))))
  {
  }

  /** What the id loop of `gateway_get_plan` reads, step by step. */
  function StepIds(steps: Value, n: nat): seq<Result<string, Exception>> {
    seq(n, x requires 0 <= x < n => StepId(steps, x))
  }

  datatype Scan = Scan(ids: seq<string>, failure: Option<Exception>)

  /** The ids a loop over `rs` appends before it stops at the first failure. */
  function ScanIds(rs: seq<Result<string, Exception>>): Scan
    decreases |rs|
  {
    if rs == [] then Scan([], None)
    else if rs[0].Err? then Scan([], Some(rs[0].error))
    else
      var rest := ScanIds(rs[1..]);
      Scan([rs[0].value] + rest.ids, rest.failure)
  }

  /** The scanned ids are the values before the first failure, in order, and
      the failure is the first one there is. */
  lemma {:induction false} ScanIdsCharacterized(rs: seq<Result<string, Exception>>)
    ensures var s := ScanIds(rs);
      |s.ids| <= |rs| && (forall i :: 0 <= i < |s.ids| ==> rs[i] == Ok(s.ids[i])) &&
      (s.failure.None? <==> |s.ids| == |rs|) &&
      (s.failure.Some? ==> rs[|s.ids|] == Err(s.failure.value))
    decreases |rs|
  {
    if rs != [] && rs[0].Ok? {
      ScanIdsCharacterized(rs[1..]);
    }
  }

  /** One more step of the loop after a prefix without failure. */
  lemma {:induction false} ScanIdsSnoc(rs: seq<Result<string, Exception>>, x: Result<string, Exception>)
    requires ScanIds(rs).failure.None?
    ensures ScanIds(rs + [x]) ==
      if x.Ok? then Scan(ScanIds(rs).ids + [x.value], None) else Scan(ScanIds(rs).ids, Some(x.error))
    decreases |rs|
  {
    if rs == [] {
      assert rs + [x] == [x];
    } else {
      assert (rs + [x])[1..] == rs[1..] + [x];
      ScanIdsSnoc(rs[1..], x);
    }
  }

  /** Nothing after the first failure is looked at. */
  lemma {:induction false} ScanIdsStops(rs: seq<Result<string, Exception>>, more: seq<Result<string, Exception>>)
    requires ScanIds(rs).failure.Some?
    ensures ScanIds(rs + more) == ScanIds(rs)
    decreases |rs|
  {
    if rs[0].Ok? {
      assert (rs + more)[1..] == rs[1..] + more;
      ScanIdsStops(rs[1..], more);
    }
  }

  /** Every step is a dict whose `Id` is a str. */
  predicate WellFormedSteps(items: seq<Value>) {
    forall i :: 0 <= i < |items| ==> items[i].Dict? && "Id" in items[i].fields && items[i].fields["Id"].Str?
  }

  /** On a well-formed action sequence the id loop raises nothing and
      collects every step's id, in order. */
  lemma WellFormedPlanYieldsAllIds(items: seq<Value>)
    requires WellFormedSteps(items)
    ensures ScanIds(StepIds(List(items), |items|)) ==
      Scan(seq(|items|, i requires 0 <= i < |items| => items[i].fields["Id"].s), None)
  {
    var rs := StepIds(List(items), |items|);
    var ids := seq(|items|, i requires 0 <= i < |items| => items[i].fields["Id"].s);
    assert forall i :: 0 <= i < |rs| ==> rs[i] == Ok(ids[i]);
    ScanIdsCharacterized(rs);
    assert ScanIds(rs).ids == ids;
  }

  /** What `gateway_get_plan` makes of a plan reply: the plan id and the
      length it records (None when it raises before), the step ids it
      appends, and what it returns. */
  datatype PlanRead = PlanRead(planId: Option<Value>, numSteps: Option<nat>, ids: seq<string>,
                               result: Result<Value, Exception>)

  function ReadPlan(reply: Body): (p: PlanRead)
    ensures p.result.Ok? ==> p.planId.Some? && p.numSteps.Some? && reply.Json? && p.result.value == reply.value
  {
    match PlanFields(reply)
    case Err(e) => PlanRead(None, None, [], Err(e))
    case Ok((steps, planId)) =>
      match Len(steps)
      case Err(e) => PlanRead(Some(planId), None, [], Err(e))
      case Ok(n) =>
        var scan := ScanIds(StepIds(steps, n));
        PlanRead(Some(planId), Some(n), scan.ids, if scan.failure.Some? then Err(scan.failure.value) else Ok(reply.value))
  }

  /** The plan id is recorded once the reply passes the field checks and the
      length once the action sequence has one; the ids appended are those of
      the leading steps that have one, and the reply is accepted exactly when
      every step does, the error otherwise being the first failing step's. */
  lemma ReadPlanCharacterized(reply: Body)
    ensures var p := ReadPlan(reply);
      (PlanFields(reply).Err? ==> p.result == Err(PlanFields(reply).error)) &&
      (PlanFields(reply).Ok? && Len(PlanFields(reply).value.0).Err? ==>
        p.result == Err(Len(PlanFields(reply).value.0).error)) &&
      (p.planId.Some? <==> PlanFields(reply).Ok?) &&
      (p.planId.Some? ==> p.planId.value == PlanFields(reply).value.1) &&
      (p.numSteps.Some? <==> PlanFields(reply).Ok? && Len(PlanFields(reply).value.0).Ok?) &&
      (p.numSteps.None? ==> p.ids == [] && p.result.Err?) &&
      (p.numSteps.Some? ==>
        var steps := PlanFields(reply).value.0;
        p.numSteps.value == Len(steps).value && |p.ids| <= p.numSteps.value &&
        (forall i :: 0 <= i < |p.ids| ==> StepId(steps, i) == Ok(p.ids[i])) &&
        (p.result.Ok? <==> |p.ids| == p.numSteps.value) &&
        (p.result.Err? ==> StepId(steps, |p.ids|) == Err(p.result.error)))
  {
    if PlanFields(reply).Ok? && Len(PlanFields(reply).value.0).Ok? {
      ScanIdsCharacterized(StepIds(PlanFields(reply).value.0, Len(PlanFields(reply).value.0).value));
    }
  }

  /** A list plan whose first malformed step is a dict without `Id` raises
      FailedToConnect for the missing key, after appending the ids of the
      steps before it. */
  lemma ReadPlanMissingId(reply: Body, items: seq<Value>, i: nat)
    requires PlanFields(reply).Ok? && PlanFields(reply).value.0 == List(items)
    requires i < |items| && WellFormedSteps(items[..i])
    requires items[i].Dict? && "Id" !in items[i].fields
    ensures ReadPlan(reply).result == Err(FailedToConnect(MissingKey(Str("Id"))))
    ensures ReadPlan(reply).ids == seq(i, k requires 0 <= k < i => items[k].fields["Id"].s)
  {
    var rs := StepIds(List(items), |items|);
    var ids := seq(i, k requires 0 <= k < i => items[k].fields["Id"].s);
    assert forall k :: 0 <= k < i ==> items[..i][k] == items[k];
    assert forall k :: 0 <= k < i ==> rs[k] == Ok(ids[k]);
    assert rs[i] == Err(FailedToConnect(MissingKey(Str("Id"))));
    ScanIdsCharacterized(rs);
    assert ScanIds(rs).ids == ids;
  }

  /** A plan whose action sequence is a list is accepted exactly when every
      step is a dict with a str `Id`; then every id is appended, in order. */
  lemma ReadPlanOnList(reply: Body, items: seq<Value>)
    requires PlanFields(reply).Ok? && PlanFields(reply).value.0 == List(items)
    ensures ReadPlan(reply).result.Ok? <==> WellFormedSteps(items)
    ensures WellFormedSteps(items) ==>
      ReadPlan(reply).ids == seq(|items|, i requires 0 <= i < |items| => items[i].fields["Id"].s)
  {
    var rs := StepIds(List(items), |items|);
    ScanIdsCharacterized(rs);
    if WellFormedSteps(items) {
      WellFormedPlanYieldsAllIds(items);
    } else {
      var i :| 0 <= i < |items| && !(items[i].Dict? && "Id" in items[i].fields && items[i].fields["Id"].Str?);
      assert rs[i].Err?;
    }
  }

  /** The buffer after the append step of `send_image`: the image is stored
      only while the buffer is shorter than the batch. */
  function Buffered(entries: seq<BufferedImage>, image: BufferedImage, batchSize: int): seq<BufferedImage> {
    if |entries| < batchSize then entries + [image] else entries
  }

  function BatchFiles(batch: seq<BufferedImage>): seq<ImageFile> {
    seq(|batch|, i requires 0 <= i < |batch| => ImageFile("image" + Decimal.NatToString(i + 1), batch[i].image))
  }

  function Timestamps(batch: seq<BufferedImage>): seq<Option<string>> {
    seq(|batch|, i requires 0 <= i < |batch| => batch[i].timestamp)
  }

  /** A posted batch holds one file per buffered image, in buffer order, named
      `image1` .. `imageN` with no name repeated, and the timestamps in the
      same order. */
  lemma BatchFilesInOrder(batch: seq<BufferedImage>)
    ensures |BatchFiles(batch)| == |batch| == |Timestamps(batch)|
    ensures forall i :: 0 <= i < |batch| ==>
      BatchFiles(batch)[i].name == "image" + Decimal.NatToString(i + 1) &&
      BatchFiles(batch)[i].content == batch[i].image && Timestamps(batch)[i] == batch[i].timestamp
    ensures forall i, j :: 0 <= i < j < |batch| ==> BatchFiles(batch)[i].name != BatchFiles(batch)[j].name
  {
    var files := BatchFiles(batch);
    forall i, j | 0 <= i < j < |batch|
      ensures files[i].name != files[j].name
    {
      var a, b := Decimal.NatToString(i + 1), Decimal.NatToString(j + 1);
      if files[i].name == files[j].name {
        assert a == files[i].name[5..] && b == files[j].name[5..];
        Decimal.NatToStringInjective(i + 1, j + 1);
      }
    }
  }

  /** Starting below the batch size, one call stores exactly the new image,
      and the buffer is either full (and then flushed) or still below the
      batch size; a buffer already over the batch size is left as it is. */
  lemma SendImageStep(entries: seq<BufferedImage>, image: BufferedImage, batchSize: int)
    requires batchSize >= 1
    ensures |entries| < batchSize ==>
      Buffered(entries, image, batchSize) == entries + [image] && |Buffered(entries, image, batchSize)| <= batchSize
    ensures |entries| > batchSize ==>
      Buffered(entries, image, batchSize) == entries && |Buffered(entries, image, batchSize)| != batchSize
  {
  }

  datatype Batches = Batches(buffer: seq<BufferedImage>, posted: seq<seq<BufferedImage>>)

  /** Successive `send_image` calls with one batch size whose posts succeed. */
  function SendAll(entries: seq<BufferedImage>, images: seq<BufferedImage>, batchSize: int): Batches
    requires batchSize >= 1
    decreases |images|
  {
    if images == [] then Batches(entries, [])
    else
      var stored := Buffered(entries, images[0], batchSize);
      var full := |stored| == batchSize;
      var rest := SendAll(if full then [] else stored, images[1..], batchSize);
      Batches(rest.buffer, (if full then [stored] else []) + rest.posted)
  }

  function Flatten<T>(batches: seq<seq<T>>): seq<T>
    decreases |batches|
  {
    if batches == [] then [] else batches[0] + Flatten(batches[1..])
  }

  lemma FlattenCons<T>(first: seq<T>, rest: seq<seq<T>>)
    ensures Flatten([first] + rest) == first + Flatten(rest)
  {
    assert ([first] + rest)[1..] == rest;
  }

  /** With one batch size and a buffer below it, every batch posted is full
      and the buffer stays below the batch. */
  lemma {:induction false} SendAllBatchesFull(entries: seq<BufferedImage>, images: seq<BufferedImage>, batchSize: int)
    requires batchSize >= 1 && |entries| < batchSize
    ensures var b := SendAll(entries, images, batchSize);
      |b.buffer| < batchSize && forall i :: 0 <= i < |b.posted| ==> |b.posted[i]| == batchSize
    decreases |images|
  {
    if images != [] {
      var stored := entries + [images[0]];
      if |stored| == batchSize {
        SendAllBatchesFull([], images[1..], batchSize);
      } else {
        SendAllBatchesFull(stored, images[1..], batchSize);
      }
    }
  }

  /** With one batch size and a buffer below it, no image is lost or
      reordered: the posted batches followed by the buffer are exactly the
      buffered entries and the images sent, every batch is full, and the
      buffer stays below the batch. */
  lemma {:induction false} SendAllLosesNothing(entries: seq<BufferedImage>, images: seq<BufferedImage>, batchSize: int)
    requires batchSize >= 1 && |entries| < batchSize
    ensures var b := SendAll(entries, images, batchSize);
      Flatten(b.posted) + b.buffer == entries + images && |b.buffer| < batchSize &&
      forall i :: 0 <= i < |b.posted| ==> |b.posted[i]| == batchSize
    decreases |images|
  {
    SendAllBatchesFull(entries, images, batchSize);
    if images != [] {
      var stored := entries + [images[0]];
      assert Buffered(entries, images[0], batchSize) == stored;
      assert entries + images == stored + images[1..];
      if |stored| == batchSize {
        var rest := SendAll([], images[1..], batchSize);
        assert SendAll(entries, images, batchSize).posted == [stored] + rest.posted;
        SendAllLosesNothing([], images[1..], batchSize);
        FlattenCons(stored, rest.posted);
        assert Flatten([stored] + rest.posted) + rest.buffer == stored + (Flatten(rest.posted) + rest.buffer);
      } else {
        var rest := SendAll(stored, images[1..], batchSize);
        assert SendAll(entries, images, batchSize).posted == rest.posted by {
          assert [] + rest.posted == rest.posted;
        }
        SendAllLosesNothing(stored, images[1..], batchSize);
      }
    }
  }

  /** What `register` makes of the network application's reply body: an
      empty body passes, one that is not JSON raises FailedToConnect, and a
      JSON dict passes exactly when it has no `error` key. */
  function RegisterReplyCheck(body: Body): (r: Outcome<Exception>)
    ensures body.Empty? ==> r == Pass
    ensures body.NotJson? ==> r == Fail(FailedToConnect(UndecodableReply))
    ensures body.Json? && body.value.Dict? ==>
      (r.Pass? <==> "error" !in body.value.fields) &&
      ("error" in body.value.fields ==> r == Fail(FailedToConnect(NetAppError(body.value.fields["error"]))))
  {
    match body
    case Empty => Pass
    case NotJson => Fail(FailedToConnect(UndecodableReply))
    case Json(data) =>
      match Contains(data, "error")
      case Err(e) => Fail(e)
      case Ok(hasError) =>
        if !hasError then Pass
        else
          match GetItem(data, "error")
          case Err(e) => Fail(e)
          case Ok(message) => Fail(FailedToConnect(NetAppError(message)))
  }

  /** The module-global list of images waiting to be posted as one batch. */
  class ImageBuffer {
    var entries: seq<BufferedImage>

    constructor ()
      ensures entries == []
    {
      entries := [];
    }
  }

  class NetAppClient {
    var numSteps: int
    var actionSeqIds: seq<string>
    var host: Option<string>
    var resourceLock: bool
    var netappHost: Option<string>
    var netappPort: Option<int>
    var useMiddleware: bool
    var sessionCookie: Option<string>
    var plan: Option<Value>
    var actionPlanId: Value
    var resourceChecker: Option<ResourceChecker>
    var userId: string
    var password: string
    var taskId: string
    var token: Option<string>
    var waitForNetapp: bool
    var log: seq<Request>

    /** The fields as `__init__` sets them from its arguments; the host loses
        its trailing slashes. */
    predicate Initialized(host: Option<string>, userId: string, password: string, taskId: string, resourceLock: bool,
                          useMiddleware: bool, waitForNetapp: bool, netappUri: Option<string>, netappPort: Option<int>)
      reads this
    {
      this.host == (if host.Some? then Some(RStrip(host.value, '/')) else None) &&
      numSteps == 0 && actionSeqIds == [] && this.resourceLock == resourceLock &&
      netappHost == netappUri && this.netappPort == netappPort && this.useMiddleware == useMiddleware &&
      sessionCookie == None && plan == None && actionPlanId == Null && resourceChecker == None &&
      this.userId == userId && this.password == password && this.taskId == taskId &&
      token == None && this.waitForNetapp == waitForNetapp && log == []
    }

    /** The field set-up of `__init__`. */
    constructor (host: Option<string>, userId: string, password: string, taskId: string, resourceLock: bool,
                 useMiddleware: bool, waitForNetapp: bool, netappUri: Option<string>, netappPort: Option<int>)
      ensures Initialized(host, userId, password, taskId, resourceLock, useMiddleware, waitForNetapp, netappUri, netappPort)
    {
      numSteps := 0;
      actionSeqIds := [];
      this.host := if host.Some? then Some(RStrip(host.value, '/')) else None;
      this.resourceLock := resourceLock;
      netappHost := netappUri;
      this.netappPort := netappPort;
      this.useMiddleware := useMiddleware;
      sessionCookie := None;
      plan := None;
      actionPlanId := Null;
      resourceChecker := None;
      this.userId := userId;
      this.password := password;
      this.taskId := taskId;
      token := None;
      this.waitForNetapp := waitForNetapp;
      log := [];
    }

    /** The whole of `__init__`: with the middleware, construction always
        fails at the plan-id guard, before any request and before any
        resource deletion. */
    static method Create(host: Option<string>, userId: string, password: string, taskId: string, resourceLock: bool,
                         useMiddleware: bool, waitForNetapp: bool, netappUri: Option<string>, netappPort: Option<int>,
                         replies: MiddlewareReplies) returns (c: NetAppClient, r: Outcome<Exception>)
      ensures fresh(c)
      ensures c.Initialized(host, userId, password, taskId, resourceLock, useMiddleware, waitForNetapp, netappUri, netappPort)
      ensures r == if useMiddleware then Fail(FailedToConnect(NeedPlanId)) else Pass
    {
      c := new NetAppClient(host, userId, password, taskId, resourceLock, useMiddleware, waitForNetapp, netappUri, netappPort);
      r := Pass;
      if useMiddleware {
        r := c.ConnectToMiddleware(replies);
      }
    }

    /** `http://<host>/<path>`; an unset host is written `None`. */
    function BuildMiddlewareApiEndpoint(path: string): (url: string)
      reads this
      ensures host.Some? ==> url == MiddlewareInfo(host.value, userId, password).BuildApiEndpoint(path)
      ensures host.None? ==> url == "http://None/" + path
    {
      Scheme + OptionalText(host) + "/" + path
    }

    /** `http://<netapp_host>:<netapp_port>/<path>`; unset parts are written
        `None`. */
    function BuildNetAppApiEndpoint(path: string): (url: string)
      reads this
      ensures netappHost.Some? && netappPort.Some? ==>
        url == NetAppLocation(netappHost.value, netappPort.value).BuildApiEndpoint(path)
    {
      Scheme + OptionalText(netappHost) + ":" +
      (if netappPort.Some? then Decimal.IntToString(netappPort.value) else "None") + "/" + path
    }

    function LoginRequest(): Request
      reads this
    {
      PostJson(BuildMiddlewareApiEndpoint("Login"), Dict(map["Id" := Str(userId), "Password" := Str(password)]), None)
    }

    function PlanRequest(): Request
      reads this
    {
      PostJson(BuildMiddlewareApiEndpoint("Task/Plan"),
               Dict(map["TaskId" := Str(taskId), "LockResourceReUse" := Bool(resourceLock)]),
               Some("Bearer " + OptionalText(token)))
    }

    /** The request `delete_all_resources` issues: none unless both the token
        and the plan id are set. */
    function PlanDeletion(): seq<Request>
      reads this
    {
      if token.None? || actionPlanId == Null then []
      else [Delete(BuildMiddlewareApiEndpoint(PlanPath + "/" + Text(actionPlanId)), "Bearer " + token.value)]
    }

    /** Logs in, fetches the plan, records the token, the plan and the
        resource checker, and, when it waits for the network application,
        takes its address from the checker. Once past the plan-id guard,
        every failure releases the plan and is raised as FailedToConnect. */
    method ConnectToMiddleware(replies: MiddlewareReplies) returns (r: Outcome<Exception>)
      modifies this`log, this`token, this`actionPlanId, this`numSteps, this`actionSeqIds, this`plan,
              this`resourceChecker, this`netappHost, this`netappPort
      ensures !Truthy(old(actionPlanId)) ==> r == Fail(FailedToConnect(NeedPlanId)) && unchanged(this)
      ensures r.Fail? ==> r.error.FailedToConnect?
      ensures Truthy(old(actionPlanId)) && LoginToken(replies.login).Err? ==>
        r == Fail(FailedToConnect(MiddlewareFailure(LoginToken(replies.login).error))) &&
        log == old(log) + [old(LoginRequest())] + old(PlanDeletion()) &&
        token == old(token) && actionPlanId == old(actionPlanId) && numSteps == old(numSteps) &&
        actionSeqIds == old(actionSeqIds) && plan == old(plan) && resourceChecker == old(resourceChecker)
      ensures Truthy(old(actionPlanId)) && LoginToken(replies.login).Ok? ==>
        token == Some(LoginToken(replies.login).value) && PlanRecorded(replies.plan, old(actionPlanId), old(numSteps), old(actionSeqIds))
      ensures Truthy(old(actionPlanId)) && LoginToken(replies.login).Ok? && ReadPlan(replies.plan).result.Err? ==>
        plan == old(plan) && resourceChecker == old(resourceChecker)
      ensures Truthy(old(actionPlanId)) && LoginToken(replies.login).Ok? && ReadPlan(replies.plan).result.Ok? ==>
        JoinedPlan(replies, old(actionSeqIds))
      ensures Truthy(old(actionPlanId)) && LoginToken(replies.login).Ok? && r.Fail? ==>
        log == old(log) + [old(LoginRequest()), PlanRequest()] + PlanDeletion()
      ensures r.Pass? <==> Truthy(old(actionPlanId)) && MiddlewareAccepts(replies)
      ensures Truthy(old(actionPlanId)) && r.Fail? ==> r == Fail(FailedToConnect(MiddlewareFailure(TryBlockError(replies).value)))
      ensures r.Pass? ==> log == old(log) + [old(LoginRequest()), PlanRequest()]
      ensures netappHost == (if r.Pass? && useMiddleware && waitForNetapp then Some(replies.netappUri) else old(netappHost))
      ensures netappPort == (if r.Pass? && useMiddleware && waitForNetapp then Some(NetAppPort) else old(netappPort))
    {
      if !Truthy(actionPlanId) {
        return Fail(FailedToConnect(NeedPlanId));
      }
      r := JoinMiddleware(replies);
      if r.Fail? {
        DeleteAllResources();
        return Fail(FailedToConnect(MiddlewareFailure(r.error)));
      }
    }

    /** The fields `gateway_get_plan` leaves, whether it returns or raises:
        the plan id and the length `ReadPlan` records, each staying at its
        prior value where none is recorded, and the ids it reads appended to
        `priorIds`. */
    predicate PlanRecorded(reply: Body, priorId: Value, priorSteps: int, priorIds: seq<string>)
      reads this`actionPlanId, this`numSteps, this`actionSeqIds
    {
      var p := ReadPlan(reply);
      actionSeqIds == priorIds + p.ids &&
      actionPlanId == (if p.planId.Some? then p.planId.value else priorId) &&
      numSteps == if p.numSteps.Some? then p.numSteps.value else priorSteps
    }

    /** The state the login and plan steps leave: the token from the login
        reply; the plan, its id, its length and its step ids (after the
        `priorIds`) from an accepted plan reply; and a resource checker on the
        token and the plan id. */
    predicate JoinedPlan(replies: MiddlewareReplies, priorIds: seq<string>)
      reads this
    {
      var p := ReadPlan(replies.plan);
      LoginToken(replies.login).Ok? && token == Some(LoginToken(replies.login).value) &&
      p.result.Ok? && actionPlanId == p.planId.value && numSteps == p.numSteps.value &&
      actionSeqIds == priorIds + p.ids && plan == Some(p.result.value) &&
      resourceChecker == Some(ResourceChecker(token.value, actionPlanId, BuildMiddlewareApiEndpoint(PlanPath)))
    }

    /** Whether the middleware's replies get `connect_to_middleware` through:
        the login and the plan are accepted and, when it waits for the
        network application, the checker reports it ready. */
    predicate MiddlewareAccepts(replies: MiddlewareReplies)
      reads this`useMiddleware, this`waitForNetapp
    {
      LoginToken(replies.login).Ok? && ReadPlan(replies.plan).result.Ok? &&
      (useMiddleware && waitForNetapp ==> replies.ready)
    }

    /** The exception the `try` block of `connect_to_middleware` raises, if
        any: the login's error, else the plan's, else, when it waits for the
        network application, `NetAppNotReady` from a checker that is not
        ready (the checker was just created, so it is always there). */
    function TryBlockError(replies: MiddlewareReplies): (e: Option<Exception>)
      reads this`useMiddleware, this`waitForNetapp
      ensures e.None? <==> MiddlewareAccepts(replies)
      ensures LoginToken(replies.login).Err? ==> e == Some(LoginToken(replies.login).error)
      ensures LoginToken(replies.login).Ok? && ReadPlan(replies.plan).result.Err? ==> e == Some(ReadPlan(replies.plan).result.error)
      ensures LoginToken(replies.login).Ok? && ReadPlan(replies.plan).result.Ok? && useMiddleware && waitForNetapp && !replies.ready ==>
        e == Some(NetAppNotReady(""))
    {
      if LoginToken(replies.login).Err? then Some(LoginToken(replies.login).error)
      else if ReadPlan(replies.plan).result.Err? then Some(ReadPlan(replies.plan).result.error)
      else if useMiddleware && waitForNetapp && !replies.ready then Some(NetAppNotReady(""))
      else None
    }

    /** The `try` block of `connect_to_middleware`: the login and plan steps,
        then the wait for the network application. */
    method JoinMiddleware(replies: MiddlewareReplies) returns (r: Outcome<Exception>)
      modifies this`log, this`token, this`actionPlanId, this`numSteps, this`actionSeqIds, this`plan, this`resourceChecker,
               this`netappHost, this`netappPort
      ensures LoginToken(replies.login).Err? ==>
        r == Fail(LoginToken(replies.login).error) && log == old(log) + [old(LoginRequest())] &&
        token == old(token) && actionPlanId == old(actionPlanId) && numSteps == old(numSteps) &&
        actionSeqIds == old(actionSeqIds) && plan == old(plan) && resourceChecker == old(resourceChecker)
      ensures LoginToken(replies.login).Ok? ==>
        token == Some(LoginToken(replies.login).value) && log == old(log) + [old(LoginRequest()), PlanRequest()]
      ensures LoginToken(replies.login).Ok? ==> PlanRecorded(replies.plan, old(actionPlanId), old(numSteps), old(actionSeqIds))
      ensures LoginToken(replies.login).Ok? && ReadPlan(replies.plan).result.Err? ==>
        r.Fail? && plan == old(plan) && resourceChecker == old(resourceChecker)
      ensures LoginToken(replies.login).Ok? && ReadPlan(replies.plan).result.Ok? ==> JoinedPlan(replies, old(actionSeqIds))
      ensures r.Pass? <==> MiddlewareAccepts(replies)
      ensures r.Fail? ==> r == Fail(TryBlockError(replies).value)
      ensures netappHost == (if r.Pass? && useMiddleware && waitForNetapp then Some(replies.netappUri) else old(netappHost))
      ensures netappPort == (if r.Pass? && useMiddleware && waitForNetapp then Some(NetAppPort) else old(netappPort))
    {
      r := JoinPlan(replies);
      if r.Pass? {
        r := AwaitNetApp(replies.ready, replies.netappUri);
      }
    }

    /** The login and plan steps of `connect_to_middleware`. */
    method JoinPlan(replies: MiddlewareReplies) returns (r: Outcome<Exception>)
      modifies this`log, this`token, this`actionPlanId, this`numSteps, this`actionSeqIds, this`plan, this`resourceChecker
      ensures LoginToken(replies.login).Err? ==>
        r == Fail(LoginToken(replies.login).error) && log == old(log) + [old(LoginRequest())] &&
        token == old(token) && actionPlanId == old(actionPlanId) && numSteps == old(numSteps) &&
        actionSeqIds == old(actionSeqIds) && plan == old(plan) && resourceChecker == old(resourceChecker)
      ensures LoginToken(replies.login).Ok? ==>
        token == Some(LoginToken(replies.login).value) && log == old(log) + [old(LoginRequest()), PlanRequest()]
      ensures LoginToken(replies.login).Ok? ==> PlanRecorded(replies.plan, old(actionPlanId), old(numSteps), old(actionSeqIds))
      ensures LoginToken(replies.login).Ok? && ReadPlan(replies.plan).result.Err? ==>
        r == Fail(ReadPlan(replies.plan).result.error) && plan == old(plan) && resourceChecker == old(resourceChecker)
      ensures r.Pass? <==> LoginToken(replies.login).Ok? && ReadPlan(replies.plan).result.Ok?
      ensures r.Pass? ==> JoinedPlan(replies, old(actionSeqIds))
    {
      ghost var loginRequest := LoginRequest();
      var login := GatewayLogin(userId, password, replies.login);
      assert log == old(log) + [loginRequest];
      if login.Err? {
        return Fail(login.error);
      }
      token := Some(login.value);
      r := FetchPlan(replies.plan);
    }

    /** The plan step of `connect_to_middleware`, once the token is set:
        fetches the plan, records it and starts a resource checker on the
        token and the plan id. */
    method FetchPlan(reply: Body) returns (r: Outcome<Exception>)
      requires token.Some?
      modifies this`log, this`actionPlanId, this`numSteps, this`actionSeqIds, this`plan, this`resourceChecker
      ensures log == old(log) + [old(PlanRequest())]
      ensures PlanRecorded(reply, old(actionPlanId), old(numSteps), old(actionSeqIds))
      ensures ReadPlan(reply).result.Err? ==>
        r == Fail(ReadPlan(reply).result.error) && plan == old(plan) && resourceChecker == old(resourceChecker)
      ensures ReadPlan(reply).result.Ok? ==>
        r == Pass && plan == Some(reply.value) &&
        resourceChecker == Some(ResourceChecker(token.value, actionPlanId, BuildMiddlewareApiEndpoint(PlanPath)))
    {
      var fetched := GatewayGetPlan(taskId, resourceLock, reply);
      if fetched.Err? {
        return Fail(fetched.error);
      }
      plan := Some(fetched.value);
      resourceChecker := Some(ResourceChecker(token.value, actionPlanId, BuildMiddlewareApiEndpoint(PlanPath)));
      r := Pass;
    }

    /** Registers at the network application over HTTP and opens the results
        socket with the session cookie it returns. `checkerReady` is what the
        resource checker reports, `connectOk` whether the socket opens. */
    method Register(args: Option<map<string, Value>>, checkerReady: bool, reply: Response, connectOk: bool)
      returns (r: Result<Response, Exception>)
      modifies this`log, this`sessionCookie
      ensures useMiddleware && resourceChecker.None? ==>
        r == Err(NetAppNotReady("Not connected to the middleware.")) && log == old(log) && sessionCookie == old(sessionCookie)
      ensures useMiddleware && resourceChecker.Some? && !checkerReady ==>
        r == Err(NetAppNotReady("Not ready.")) && log == old(log) && sessionCookie == old(sessionCookie)
      ensures !useMiddleware || (resourceChecker.Some? && checkerReady) ==>
        var get := Get(BuildNetAppApiEndpoint("register"), args);
        match RegisterReplyCheck(reply.body)
        case Fail(e) => r == Err(e) && log == old(log) + [get] && sessionCookie == old(sessionCookie)
        case Pass =>
          if "session" !in reply.cookies then
            r == Err(KeyError(Str("session"))) && log == old(log) + [get] && sessionCookie == old(sessionCookie)
          else
            var cookie := reply.cookies["session"];
            sessionCookie == Some(cookie) &&
            log == old(log) + [get, SioConnect(BuildNetAppApiEndpoint(""), ["/results"], "session=" + cookie)] &&
            r == if connectOk then Ok(reply) else Err(TransportError)
    {
      if useMiddleware {
        if resourceChecker.None? {
          return Err(NetAppNotReady("Not connected to the middleware."));
        }
        if !checkerReady {
          return Err(NetAppNotReady("Not ready."));
        }
      }
      log := log + [Get(BuildNetAppApiEndpoint("register"), args)];
      var check := RegisterReplyCheck(reply.body);
      if check.Fail? {
        return Err(check.error);
      }
      if "session" !in reply.cookies {
        return Err(KeyError(Str("session")));
      }
      sessionCookie := Some(reply.cookies["session"]);
      log := log + [SioConnect(BuildNetAppApiEndpoint(""), ["/results"], "session=" + sessionCookie.value)];
      if !connectOk {
        return Err(TransportError);
      }
      r := Ok(reply);
    }

    /** Unregisters when the network application's address is known, closes
        the socket, and releases the plan when the middleware is used. */
    method Disconnect()
      modifies this`log
      ensures log == old(log) +
        (if netappHost.Some? && netappPort.Some? then [Get(BuildNetAppApiEndpoint("unregister"), None)] else []) +
        [SioDisconnect] + (if useMiddleware then PlanDeletion() else [])
    {
      if netappHost.Some? && netappPort.Some? {
        log := log + [Get(BuildNetAppApiEndpoint("unregister"), None)];
      }
      log := log + [SioDisconnect];
      if useMiddleware {
        DeleteAllResources();
      }
    }

    /** Encodes a frame (`encoded`: what the JPEG encoder returns, `None` when
        it raises), stores it in the shared buffer while the buffer is below
        the batch size, and posts and clears the buffer once it holds exactly
        a batch (`postOk`: whether the post succeeds). */
    method SendImage(buffer: ImageBuffer, encoded: Option<Bytes>, timestamp: Option<string>, batchSize: int, postOk: bool)
      returns (r: Outcome<Exception>)
      modifies this`log, buffer
      ensures batchSize < 1 ==> r == Fail(AssertionError) && log == old(log) && buffer.entries == old(buffer.entries)
      ensures batchSize >= 1 && encoded.None? ==>
        r == Fail(EncodingError) && log == old(log) && buffer.entries == old(buffer.entries)
      ensures batchSize >= 1 && encoded.Some? ==>
        var stored := Buffered(old(buffer.entries), BufferedImage(encoded.value, timestamp), batchSize);
        if |stored| == batchSize then
          log == old(log) + [PostImages(BuildNetAppApiEndpoint("image"), BatchFiles(stored), Timestamps(stored))] &&
          buffer.entries == (if postOk then [] else stored) && r == (if postOk then Pass else Fail(TransportError))
        else
          log == old(log) && buffer.entries == stored && r == Pass
    {
      if batchSize < 1 {
        return Fail(AssertionError);
      }
      if encoded.None? {
        return Fail(EncodingError);
      }
      if |buffer.entries| < batchSize {
        buffer.entries := buffer.entries + [BufferedImage(encoded.value, timestamp)];
      }
      if |buffer.entries| == batchSize {
        var files := BatchFiles(buffer.entries);
        var stamps := Timestamps(buffer.entries);
        log := log + [PostImages(BuildNetAppApiEndpoint("image"), files, stamps)];
        if !postOk {
          return Fail(TransportError);
        }
        buffer.entries := [];
      }
      r := Pass;
    }

    /** The last step of `connect_to_middleware`: when it waits for the
        network application, the checker has to exist and report it ready
        (`ready`), and its address (`uri`) is taken. */
    method AwaitNetApp(ready: bool, uri: string) returns (r: Outcome<Exception>)
      modifies this`netappHost, this`netappPort
      ensures r == if !(useMiddleware && waitForNetapp) then Pass
                   else if resourceChecker.None? then Fail(NetAppNotReady("Not connected to middleware."))
                   else if !ready then Fail(NetAppNotReady(""))
                   else Pass
      ensures r.Pass? && useMiddleware && waitForNetapp ==> netappHost == Some(uri) && netappPort == Some(NetAppPort)
      ensures !(r.Pass? && useMiddleware && waitForNetapp) ==> netappHost == old(netappHost) && netappPort == old(netappPort)
    {
      r := Pass;
      if useMiddleware && waitForNetapp {
        r := WaitUntilNetAppReady();
        if r.Pass? {
          r := LoadNetAppUri(ready, uri);
        }
      }
    }

    method WaitUntilNetAppReady() returns (r: Outcome<Exception>)
      ensures r == if resourceChecker.None? then Fail(NetAppNotReady("Not connected to middleware.")) else Pass
    {
      if resourceChecker.None? {
        return Fail(NetAppNotReady("Not connected to middleware."));
      }
      r := Pass;
    }

    /** Takes the network application's address from the resource checker
        (`ready`, `uri`: what it reports) when it is ready. */
    method LoadNetAppUri(ready: bool, uri: string) returns (r: Outcome<Exception>)
      modifies this`netappHost, this`netappPort
      ensures resourceChecker.Some? && ready ==> r == Pass && netappHost == Some(uri) && netappPort == Some(NetAppPort)
      ensures !(resourceChecker.Some? && ready) ==>
        r == Fail(NetAppNotReady("")) && netappHost == old(netappHost) && netappPort == old(netappPort)
    {
      if !(resourceChecker.Some? && ready) {
        return Fail(NetAppNotReady(""));
      }
      netappHost := Some(uri);
      netappPort := Some(NetAppPort);
      r := Pass;
    }

    method GatewayLogin(id: string, password: string, reply: Body) returns (r: Result<string, Exception>)
      modifies this`log
      ensures log == old(log) + [PostJson(BuildMiddlewareApiEndpoint("Login"), Dict(map["Id" := Str(id), "Password" := Str(password)]), None)]
      ensures r == LoginToken(reply)
    {
      log := log + [PostJson(BuildMiddlewareApiEndpoint("Login"), Dict(map["Id" := Str(id), "Password" := Str(password)]), None)];
      r := LoginToken(reply);
    }

    /** Requests a plan, records its id and length, and appends the id of
        every step in order to `actionSeqIds`, stopping at the first step
        that has none. */
    method GatewayGetPlan(taskId: string, resourceLock: bool, reply: Body) returns (r: Result<Value, Exception>)
      modifies this`log, this`actionPlanId, this`numSteps, this`actionSeqIds
      ensures log == old(log) + [PostJson(old(BuildMiddlewareApiEndpoint("Task/Plan")),
                                          Dict(map["TaskId" := Str(taskId), "LockResourceReUse" := Bool(resourceLock)]),
                                          Some("Bearer " + OptionalText(token)))]
      ensures r == ReadPlan(reply).result
      ensures PlanRecorded(reply, old(actionPlanId), old(numSteps), old(actionSeqIds))
    {
      log := log + [PostJson(BuildMiddlewareApiEndpoint("Task/Plan"),
                             Dict(map["TaskId" := Str(taskId), "LockResourceReUse" := Bool(resourceLock)]),
                             Some("Bearer " + OptionalText(token)))];
      var fields := PlanFields(reply);
      if fields.Err? {
        return Err(fields.error);
      }
      var (steps, planId) := fields.value;
      actionPlanId := planId;
      var count := Len(steps);
      if count.Err? {
        return Err(count.error);
      }
      var n := count.value;
      numSteps := n;
      var failure := AppendStepIds(steps, n);
      if failure.Some? {
        return Err(failure.value);
      }
      r := Ok(reply.value);
    }

    /** The step loop of `gateway_get_plan`: appends the id of each of the
        first `n` steps until one has none, and returns that step's error. */
    method AppendStepIds(steps: Value, n: nat) returns (failure: Option<Exception>)
      modifies this`actionSeqIds
      ensures actionSeqIds == old(actionSeqIds) + ScanIds(StepIds(steps, n)).ids
      ensures failure == ScanIds(StepIds(steps, n)).failure
    {
      ghost var rs := StepIds(steps, n);
      for x := 0 to n
        invariant ScanIds(rs[..x]).failure.None?
        invariant actionSeqIds == old(actionSeqIds) + ScanIds(rs[..x]).ids
      {
        var id := StepId(steps, x);
        assert rs[..x + 1] == rs[..x] + [id];
        ScanIdsSnoc(rs[..x], id);
        if id.Err? {
          ScanIdsStops(rs[..x + 1], rs[x + 1..]);
          assert rs[..x + 1] + rs[x + 1..] == rs;
          return Some(id.error);
        }
        actionSeqIds := actionSeqIds + [id.value];
      }
      assert rs[..n] == rs;
      failure := None;
    }

    /** Releases the plan at the middleware when both the token and the plan
        id are set, and does nothing otherwise. */
    method DeleteAllResources()
      modifies this`log
      ensures log == old(log) + PlanDeletion()
    {
      if token.None? || actionPlanId == Null {
        return;
      }
      log := log + [Delete(BuildMiddlewareApiEndpoint(PlanPath + "/" + Text(actionPlanId)), "Bearer " + token.value)];
    }
  }
}
