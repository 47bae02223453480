/** The data shaping around the network calls of `Scaler.transform`:
    normalising the requested outputs, building the signing request,
    choosing the upload body, planning the retrieval of each output the
    server produced, gathering the retrieved artifacts, naming the files
    to delete, and assembling a result whose shape mirrors the request.

    The replies of the remote service (token issuance, signing, upload,
    downloads) and the contents of local files are parameters. */
module Transform {
  import opened Common
  import opened Wire
  import TokenBroker

  // -------------------------------------------------------- request side

  datatype InputOptions = InputOptions(remoteUrl: Option<string>, localPath: Option<string>, buffer: Option<seq<int>>)

  /** How an output reaches the caller. `upload` is the caller's upload
      target object (`JNull` for `None`); the `buffer` flag is carried but
      never consulted by the client. */
  datatype ImageDelivery = ImageDelivery(saveToLocalPath: Option<string>, upload: Json, buffer: bool)

  /** One requested output; `imageType` is the source's `type`. */
  datatype OutputOptions = OutputOptions(fit: Fit, imageType: string, quality: Option<int>, imageDelivery: Option<ImageDelivery>, crop: Json)

  /** The `output` argument: missing, a single output, or a list. */
  datatype OutputArg = NoOutput | Single(out: OutputOptions) | Many(outs: seq<OutputOptions>)

  datatype TransformOptions = TransformOptions(input: InputOptions, output: OutputArg)

  /** The errors `transform` raises, one per message the client produces. */
  datatype TransformError =
    | RefreshFailed(cause: TokenBroker.RefreshError)  // the token refresh raised
    | NoOutputProvided                                // no (or an empty list of) outputs
    | SignFailed(status: int, text: string)           // the signing call answered other than 200
    | TransformFailed(status: int, text: string)      // the upload call answered other than 200
    | MissingDownloadUrl(index: nat)                  // a server output without a `downloadUrl` key
    | OutputIndexOutOfRange(index: nat)               // more server outputs than requested ones
    | DownloadFailed(status: int, text: string)       // a download answered other than 200
    | NoOutputImages                                  // a single output requested, none returned
    | NotAwaitable                                    // `gather` handed something that is not awaitable

  /** The requested outputs as a list: a single output becomes a
      one-element list; nothing at all is an error. */
  function NormalizeOutputs(arg: OutputArg): (r: Result<seq<OutputOptions>, TransformError>)
    ensures r.Err? <==> arg.NoOutput? || arg == Many([])
    ensures r.Err? ==> r.error == NoOutputProvided
    ensures arg.Single? ==> r == Ok([arg.out])
    ensures arg.Many? && arg.outs != [] ==> r == Ok(arg.outs)
  {
    match arg
    case NoOutput => Err(NoOutputProvided)
    case Single(o) => Ok([o])
    case Many(os) => if os == [] then Err(NoOutputProvided) else Ok(os)
  }

  /** The upload target sent for one output: its delivery's `upload`, or
      null when it has no delivery. */
  function UploadTarget(o: OutputOptions): Json
  {
    if o.imageDelivery.Some? then o.imageDelivery.value.upload else JNull
  }

  function ToApiOutput(o: OutputOptions): (a: ApiOutput)
    ensures a.fit == o.fit && a.imageType == o.imageType && a.quality == o.quality && a.crop == o.crop
    ensures a.upload == UploadTarget(o)
  {
    ApiOutput(o.fit, o.imageType, o.quality, UploadTarget(o), o.crop)
  }

  /** The input named in the signing request: the remote URL when one is
      given, otherwise the literal "body" (the image is uploaded). */
  function SignInput(input: InputOptions): (s: string)
    ensures Truthy(input.remoteUrl) ==> s == input.remoteUrl.value
    ensures !Truthy(input.remoteUrl) ==> s == "body"
  {
    if Truthy(input.remoteUrl) then input.remoteUrl.value else "body"
  }

  /** The signing request, or the error raised before it is built. */
  function SignOptions(opts: TransformOptions): (r: Result<ApiTransformOptions, TransformError>)
    ensures r.Err? <==> NormalizeOutputs(opts.output).Err?
    ensures r.Err? ==> r.error == NoOutputProvided
    ensures r.Ok? ==>
              var outs := NormalizeOutputs(opts.output).value;
              r.value.input == SignInput(opts.input) &&
              |r.value.output| == |outs| &&
              forall i :: 0 <= i < |outs| ==> r.value.output[i] == ToApiOutput(outs[i])
  {
    match NormalizeOutputs(opts.output)
    case Err(e) => Err(e)
    case Ok(outs) =>
      Ok(ApiTransformOptions(SignInput(opts.input), seq(|outs|, i requires 0 <= i < |outs| => ToApiOutput(outs[i]))))
  }

  /** The upload request: headers in insertion order and the body, if any. */
  datatype UploadRequest = UploadRequest(headers: seq<(string, string)>, body: Option<seq<int>>)

  function OctetStream(body: seq<int>): UploadRequest
  {
    UploadRequest([("Content-Type", "application/octet-stream"), ("Content-Length", Decimal(|body|))], Some(body))
  }

  /** The body posted to the upload URL: the in-memory buffer if it is
      non-empty, else the whole file at the local path, else nothing.
      `readFile` gives the bytes of a local file. */
  function UploadRequestFor(input: InputOptions, readFile: string -> seq<int>): (r: UploadRequest)
    ensures TruthyBytes(input.buffer) ==> r.body == Some(input.buffer.value)
    ensures !TruthyBytes(input.buffer) && Truthy(input.localPath) ==> r.body == Some(readFile(input.localPath.value))
    ensures r.body.None? <==> !TruthyBytes(input.buffer) && !Truthy(input.localPath)
    ensures r.body.None? ==> r.headers == []
    ensures r.body.Some? ==> Lookup(r.headers, "Content-Type") == Some("application/octet-stream")
  {
    if TruthyBytes(input.buffer) then OctetStream(input.buffer.value)
    else if Truthy(input.localPath) then OctetStream(readFile(input.localPath.value))
    else UploadRequest([], None)
  }

  /** Whatever body is sent, its `Content-Length` header reads back as
      the body's length in bytes. */
  lemma ContentLengthMatchesBody(input: InputOptions, readFile: string -> seq<int>)
    ensures var r := UploadRequestFor(input, readFile);
            r.body.Some? ==>
              var len := Lookup(r.headers, "Content-Length");
              len.Some? && IsDigits(len.value) && ParseDecimal(len.value) == |r.body.value|
  {
    var r := UploadRequestFor(input, readFile);
    if r.body.Some? {
      ParseDecimalOfDecimal(|r.body.value|);
    }
  }

  // ------------------------------------------------------- response side

  /** A key of a server JSON object: absent, null, or a string. */
  datatype Slot = Missing | Null | Str(s: string)

  predicate SlotTruthy(x: Slot)
  {
    x.Str? && x.s != ""
  }

  /** One output descriptor of the upload response. */
  datatype ServerOutput = ServerOutput(downloadUrl: Slot, fileId: Slot, fit: Json, pixelSize: Json)

  /** What the caller gets for one output. */
  datatype Artifact = Bytes(data: seq<int>) | SavedPath(path: string) | Uploaded

  /** What retrieving one output will do. */
  datatype Retrieval = ToBuffer(url: string) | ToPath(url: string, path: string) | Ready(artifact: Artifact)

  /** The retrieval for server output `i`: download its URL to the save
      path that requested output `i` names, or into memory; when the
      server gives no URL the output went out by upload and the sentinel
      is ready at once. */
  function PlanOne(i: nat, outs: seq<OutputOptions>, dest: ServerOutput): (r: Result<Retrieval, TransformError>)
    ensures dest.downloadUrl.Missing? ==> r == Err(MissingDownloadUrl(i))
    ensures dest.downloadUrl.Null? || dest.downloadUrl == Str("") ==> r == Ok(Ready(Uploaded))
    ensures SlotTruthy(dest.downloadUrl) && i >= |outs| ==> r == Err(OutputIndexOutOfRange(i))
    ensures SlotTruthy(dest.downloadUrl) && i < |outs| ==>
              var d := outs[i].imageDelivery;
              r == Ok(if d.Some? && Truthy(d.value.saveToLocalPath)
                      then ToPath(dest.downloadUrl.s, d.value.saveToLocalPath.value)
                      else ToBuffer(dest.downloadUrl.s))
  {
    if dest.downloadUrl.Missing? then Err(MissingDownloadUrl(i))
    else if SlotTruthy(dest.downloadUrl) then
      if i >= |outs| then Err(OutputIndexOutOfRange(i))
      else
        var d := outs[i].imageDelivery;
        if d.Some? && Truthy(d.value.saveToLocalPath)
        then Ok(ToPath(dest.downloadUrl.s, d.value.saveToLocalPath.value))
        else Ok(ToBuffer(dest.downloadUrl.s))
    else Ok(Ready(Uploaded))
  }

  /** The retrievals for all server outputs, in server order, or the error
      of the first server output that cannot be planned. */
  function Plan(outs: seq<OutputOptions>, dests: seq<ServerOutput>): (r: Result<seq<Retrieval>, TransformError>)
    ensures r.Ok? <==> forall i :: 0 <= i < |dests| ==> PlanOne(i, outs, dests[i]).Ok?
    ensures r.Ok? ==> (|r.value| == |dests| &&
              forall i :: 0 <= i < |dests| ==> r.value[i] == PlanOne(i, outs, dests[i]).value)
    ensures r.Err? ==> exists i :: (0 <= i < |dests| && PlanOne(i, outs, dests[i]) == Err(r.error) &&
              forall j :: 0 <= j < i ==> PlanOne(j, outs, dests[j]).Ok?)
    decreases |dests|
  {
    if dests == [] then Ok([])
    else
      var n := |dests| - 1;
      assert forall i :: 0 <= i < n ==> dests[..n][i] == dests[i];
      match Plan(outs, dests[..n])
      case Err(e) => Err(e)
      case Ok(prefix) =>
        match PlanOne(n, outs, dests[n])
        case Err(e) => Err(e)
        case Ok(x) => Ok(prefix + [x])
  }

  /** The loop that builds the list of retrieval tasks. */
  method PlanRetrievals(outs: seq<OutputOptions>, dests: seq<ServerOutput>)
    returns (r: Result<seq<Retrieval>, TransformError>)
    ensures r == Plan(outs, dests)
  {
    var promises: seq<Retrieval> := [];
    for i := 0 to |dests|
      invariant Plan(outs, dests[..i]) == Ok(promises)
    {
      var dest := dests[i];
      assert dests[..i + 1][..i] == dests[..i];
      if dest.downloadUrl.Missing? {
        PlanStopsAtFirstError(outs, dests, i);
        return Err(MissingDownloadUrl(i));
      }
      if SlotTruthy(dest.downloadUrl) {
        if i >= |outs| {
          PlanStopsAtFirstError(outs, dests, i);
          return Err(OutputIndexOutOfRange(i));
        }
        var delivery := outs[i].imageDelivery;
        if delivery.Some? && Truthy(delivery.value.saveToLocalPath) {
          promises := promises + [ToPath(dest.downloadUrl.s, delivery.value.saveToLocalPath.value)];
        } else {
          promises := promises + [ToBuffer(dest.downloadUrl.s)];
        }
      } else {
        promises := promises + [Ready(Uploaded)];
      }
    }
    assert dests[..|dests|] == dests;
    r := Ok(promises);
  }

  /** When the outputs before `i` plan and output `i` does not, planning
      stops with output `i`'s error. */
  lemma PlanStopsAtFirstError(outs: seq<OutputOptions>, dests: seq<ServerOutput>, i: nat)
    requires i < |dests|
    requires Plan(outs, dests[..i]).Ok?
    requires PlanOne(i, outs, dests[i]).Err?
    ensures Plan(outs, dests) == Err(PlanOne(i, outs, dests[i]).error)
  {
  }

  /** The reply to one download request. */
  datatype DownloadReply = DownloadReply(status: int, text: string, body: seq<int>)

  /** Perform one retrieval, `fetch` giving the reply for a URL. A saved
      download yields its path, a buffered one its bytes. */
  function Retrieve(x: Retrieval, fetch: string -> DownloadReply): (r: Result<Artifact, TransformError>)
    ensures x.Ready? ==> r == Ok(x.artifact)
    ensures !x.Ready? && fetch(x.url).status != 200 ==>
              r == Err(DownloadFailed(fetch(x.url).status, fetch(x.url).text))
    ensures x.ToBuffer? && fetch(x.url).status == 200 ==> r == Ok(Bytes(fetch(x.url).body))
    ensures x.ToPath? && fetch(x.url).status == 200 ==> r == Ok(SavedPath(x.path))
  {
    match x
    case Ready(a) => Ok(a)
    case ToBuffer(url) =>
      var reply := fetch(url);
      if reply.status != 200 then Err(DownloadFailed(reply.status, reply.text)) else Ok(Bytes(reply.body))
    case ToPath(url, path) =>
      var reply := fetch(url);
      if reply.status != 200 then Err(DownloadFailed(reply.status, reply.text)) else Ok(SavedPath(path))
  }

  /** Await all retrievals: their artifacts in plan order, or a failure. */
  function Gather(plan: seq<Retrieval>, fetch: string -> DownloadReply): (r: Result<seq<Artifact>, TransformError>)
    ensures r.Ok? <==> forall i :: 0 <= i < |plan| ==> Retrieve(plan[i], fetch).Ok?
    ensures r.Ok? ==> (|r.value| == |plan| &&
              forall i :: 0 <= i < |plan| ==> r.value[i] == Retrieve(plan[i], fetch).value)
    ensures r.Err? ==> exists i :: 0 <= i < |plan| && Retrieve(plan[i], fetch) == Err(r.error)
    decreases |plan|
  {
    if plan == [] then Ok([])
    else
      match Retrieve(plan[0], fetch)
      case Err(e) => Err(e)
      case Ok(a) =>
        match Gather(plan[1..], fetch)
        case Err(e) => Err(e)
        case Ok(rest) => Ok([a] + rest)
  }

  /** The `fileId`s named for deletion: those present and non-empty, in
      server order. */
  function FileIds(dests: seq<ServerOutput>): (ids: seq<string>)
    ensures |ids| <= |dests|
    ensures forall x :: x in ids <==> exists i :: 0 <= i < |dests| && dests[i].fileId == Str(x) && x != ""
    decreases |dests|
  {
    if dests == [] then []
    else
      var rest := FileIds(dests[1..]);
      assert forall i :: 1 <= i < |dests| ==> dests[1..][i - 1] == dests[i];
      if SlotTruthy(dests[0].fileId) then [dests[0].fileId.s] + rest else rest
  }

  /** Naming files is done output by output: the ids of two runs of
      outputs are the ids of the first followed by those of the second. */
  lemma {:induction false} FileIdsAppend(a: seq<ServerOutput>, b: seq<ServerOutput>)
    ensures FileIds(a + b) == FileIds(a) + FileIds(b)
    decreases |a|
  {
    if a != [] {
      var head := if SlotTruthy(a[0].fileId) then [a[0].fileId.s] else [];
      assert (a + b)[0] == a[0] && (a + b)[1..] == a[1..] + b;
      assert FileIds(a + b) == head + FileIds(a[1..] + b);
      FileIdsAppend(a[1..], b);
      assert FileIds(a) == head + FileIds(a[1..]);
    } else {
      assert a + b == b;
    }
  }

  /** The body of the cleanup request. */
  function DeleteBody(dests: seq<ServerOutput>): (j: Json)
    ensures j.JObj? && |j.fields| == 1 && j.fields[0].0 == "images"
    ensures j.fields[0].1.JArr? && |j.fields[0].1.items| == |FileIds(dests)|
    ensures forall i :: 0 <= i < |FileIds(dests)| ==> j.fields[0].1.items[i] == JStr(FileIds(dests)[i])
  {
    var ids := FileIds(dests);
    JObj([("images", JArr(seq(|ids|, i requires 0 <= i < |ids| => JStr(ids[i]))))])
  }

  /** One output of the result. */
  datatype OutputImage = OutputImage(fit: Json, pixelSize: Json, image: Artifact)

  /** The result's output: a list for a list request, one image for a
      single-output request. */
  datatype Shaped = One(image: OutputImage) | List(images: seq<OutputImage>)

  /** Pair each server output's `fit` and `pixelSize` with the artifact
      retrieved for it, and mirror the request's shape. */
  function Assemble(arg: OutputArg, dests: seq<ServerOutput>, artifacts: seq<Artifact>): (r: Result<Shaped, TransformError>)
    requires |artifacts| == |dests|
    ensures arg.Many? ==> (r.Ok? && r.value.List? && |r.value.images| == |dests| &&
              forall i :: 0 <= i < |dests| ==>
                r.value.images[i] == OutputImage(dests[i].fit, dests[i].pixelSize, artifacts[i]))
    ensures !arg.Many? && dests != [] ==>
              r == Ok(One(OutputImage(dests[0].fit, dests[0].pixelSize, artifacts[0])))
    ensures !arg.Many? && dests == [] ==> r == Err(NoOutputImages)
  {
    var images := seq(|dests|, i requires 0 <= i < |dests| => OutputImage(dests[i].fit, dests[i].pixelSize, artifacts[i]));
    if arg.Many? then Ok(List(images))
    else if images == [] then Err(NoOutputImages)
    else Ok(One(images[0]))
  }

  // ----------------------------------------------------------- pipeline

  datatype SignReply = SignReply(status: int, text: string, url: string)

  /** The upload call's JSON answer, the parts the client reads. */
  datatype ServerResponse = ServerResponse(inputImage: Json, outputImages: seq<ServerOutput>, deleteUrl: string)

  datatype TransformReply = TransformReply(status: int, text: string, response: ServerResponse)

  datatype TransformResponse = TransformResponse(inputImage: Json, outputImage: Shaped)

  /** What one `transform` call sent and what it returned: the signing
      body, the upload (URL and request), the cleanup (URL and body),
      each absent when the call stopped before it. */
  datatype Run = Run(
    sign: Option<Json>,
    upload: Option<(string, UploadRequest)>,
    delete: Option<(string, Json)>,
    result: Result<TransformResponse, TransformError>)

  function Stopped(e: TransformError): Run
  {
    Run(None, None, None, Err(e))
  }

  /** One `transform` call, given the outcome of the token refresh and the
      replies of the service. */
  function TransformCall(
    token: Result<TokenBroker.Token, TokenBroker.RefreshError>,
    opts: TransformOptions,
    signReply: SignReply,
    readFile: string -> seq<int>,
    transformReply: TransformReply,
    fetch: string -> DownloadReply): (r: Run)
    // the token refresh comes first, then the output check
    ensures token.Err? ==> r == Stopped(RefreshFailed(token.error))
    ensures token.Ok? && NormalizeOutputs(opts.output).Err? ==> r == Stopped(NoOutputProvided)
    // the signing request names the input and every requested output
    ensures r.sign.Some? <==> token.Ok? && SignOptions(opts).Ok?
    ensures r.sign.Some? ==> r.sign.value == ApiTransformOptionsToDict(SignOptions(opts).value)
    ensures r.sign.Some? && signReply.status != 200 ==>
              r.upload.None? && r.delete.None? && r.result == Err(SignFailed(signReply.status, signReply.text))
    // the upload goes to the signed URL
    ensures r.upload.Some? <==> r.sign.Some? && signReply.status == 200
    ensures r.upload.Some? ==> r.upload.value == (signReply.url, UploadRequestFor(opts.input, readFile))
    ensures r.upload.Some? && transformReply.status != 200 ==>
              r.delete.None? && r.result == Err(TransformFailed(transformReply.status, transformReply.text))
    // cleanup happens only after every retrieval succeeded, and names the server's file ids
    ensures r.delete.Some? ==>
              r.upload.Some? && transformReply.status == 200 &&
              r.delete.value == (transformReply.response.deleteUrl, DeleteBody(transformReply.response.outputImages))
    ensures r.delete.Some? ==>
              var outs := NormalizeOutputs(opts.output).value;
              var dests := transformReply.response.outputImages;
              Plan(outs, dests).Ok? && Gather(Plan(outs, dests).value, fetch).Ok?
    ensures r.result.Ok? ==> r.delete.Some?
    // after a 200 upload: a planning error, then a retrieval error, fails the
    // call without cleanup; full retrieval sends the cleanup and returns the
    // result shaped like the request
    ensures token.Ok? && NormalizeOutputs(opts.output).Ok? && signReply.status == 200 && transformReply.status == 200 ==>
              var plan := Plan(NormalizeOutputs(opts.output).value, transformReply.response.outputImages);
              plan.Err? ==> r.delete.None? && r.result == Err(plan.error)
    ensures token.Ok? && NormalizeOutputs(opts.output).Ok? && signReply.status == 200 && transformReply.status == 200 ==>
              var plan := Plan(NormalizeOutputs(opts.output).value, transformReply.response.outputImages);
              plan.Ok? && Gather(plan.value, fetch).Err? ==>
                r.delete.None? && r.result == Err(Gather(plan.value, fetch).error)
    ensures token.Ok? && NormalizeOutputs(opts.output).Ok? && signReply.status == 200 && transformReply.status == 200 ==>
              var resp := transformReply.response;
              var plan := Plan(NormalizeOutputs(opts.output).value, resp.outputImages);
              plan.Ok? && Gather(plan.value, fetch).Ok? ==>
                var a := Assemble(opts.output, resp.outputImages, Gather(plan.value, fetch).value);
                r.delete.Some? &&
                r.result == (if a.Ok? then Ok(TransformResponse(resp.inputImage, a.value)) else Err(a.error))
  {
    if token.Err? then Stopped(RefreshFailed(token.error))
    else
      match NormalizeOutputs(opts.output)
      case Err(e) => Stopped(e)
      case Ok(outs) =>
        var signBody := ApiTransformOptionsToDict(SignOptions(opts).value);
        if signReply.status != 200 then
          Run(Some(signBody), None, None, Err(SignFailed(signReply.status, signReply.text)))
        else
          var upload := (signReply.url, UploadRequestFor(opts.input, readFile));
          if transformReply.status != 200 then
            Run(Some(signBody), Some(upload), None, Err(TransformFailed(transformReply.status, transformReply.text)))
          else
            var resp := transformReply.response;
            var dests := resp.outputImages;
            match Plan(outs, dests)
            case Err(e) => Run(Some(signBody), Some(upload), None, Err(e))
            case Ok(plan) =>
              match Gather(plan, fetch)
              case Err(e) => Run(Some(signBody), Some(upload), None, Err(e))
              case Ok(artifacts) =>
                var delete := (resp.deleteUrl, DeleteBody(dests));
                match Assemble(opts.output, dests, artifacts)
                case Err(e) => Run(Some(signBody), Some(upload), Some(delete), Err(e))
                case Ok(shaped) =>
                  Run(Some(signBody), Some(upload), Some(delete), Ok(TransformResponse(resp.inputImage, shaped)))
  }

  /** Order preservation: for a list request, output `i` of a successful
      result carries server output `i`'s `fit` and `pixelSize` and the
      artifact retrieved for it, whatever order the downloads finished in. */
  lemma ResultFollowsServerOrder(
    token: Result<TokenBroker.Token, TokenBroker.RefreshError>, opts: TransformOptions, signReply: SignReply,
    readFile: string -> seq<int>, transformReply: TransformReply, fetch: string -> DownloadReply)
    requires opts.output.Many?
    ensures var r := TransformCall(token, opts, signReply, readFile, transformReply, fetch);
            var dests := transformReply.response.outputImages;
            r.result.Ok? ==>
              var outs := opts.output.outs;
              r.result.value.outputImage.List? &&
              |r.result.value.outputImage.images| == |dests| &&
              forall i :: 0 <= i < |dests| ==>
                PlanOne(i, outs, dests[i]).Ok? &&
                Retrieve(PlanOne(i, outs, dests[i]).value, fetch).Ok? &&
                r.result.value.outputImage.images[i] ==
                  OutputImage(dests[i].fit, dests[i].pixelSize, Retrieve(PlanOne(i, outs, dests[i]).value, fetch).value)
  {
  }

  /** Shape mirroring: a single requested output yields a single image,
      the first the server returned. */
  lemma SingleOutputYieldsOneImage(
    token: Result<TokenBroker.Token, TokenBroker.RefreshError>, opts: TransformOptions, signReply: SignReply,
    readFile: string -> seq<int>, transformReply: TransformReply, fetch: string -> DownloadReply)
    requires opts.output.Single?
    ensures var r := TransformCall(token, opts, signReply, readFile, transformReply, fetch);
            var dests := transformReply.response.outputImages;
            r.result.Ok? ==> (r.result.value.outputImage.One? && dests != [] &&
              r.result.value.outputImage.image.fit == dests[0].fit &&
              r.result.value.outputImage.image.pixelSize == dests[0].pixelSize &&
              PlanOne(0, [opts.output.out], dests[0]).Ok? &&
              r.result.value.outputImage.image.image == Retrieve(PlanOne(0, [opts.output.out], dests[0]).value, fetch).value)
  {
  }

  /** A failed download fails the whole call with that download's error,
      and no cleanup request is sent. */
  lemma DownloadFailureSkipsCleanup(
    token: Result<TokenBroker.Token, TokenBroker.RefreshError>, opts: TransformOptions, signReply: SignReply,
    readFile: string -> seq<int>, transformReply: TransformReply, fetch: string -> DownloadReply, i: nat)
    requires token.Ok? && NormalizeOutputs(opts.output).Ok?
    requires signReply.status == 200 && transformReply.status == 200
    requires var outs := NormalizeOutputs(opts.output).value;
             var dests := transformReply.response.outputImages;
             Plan(outs, dests).Ok? && i < |dests| &&
             Retrieve(Plan(outs, dests).value[i], fetch).Err?
    ensures var r := TransformCall(token, opts, signReply, readFile, transformReply, fetch);
            r.delete.None? && r.result.Err? && r.result.error.DownloadFailed?
  {
  }

  // ------------------------------------------- the sentinel, as written

  /** The task list exactly as the loop builds it: the sentinel branch
      appends what `Future.set_result('uploaded')` returns, which is
      `None` (written `None` here), instead of an awaitable. */
  function PlanAsWritten(outs: seq<OutputOptions>, dests: seq<ServerOutput>): (r: Result<seq<Option<Retrieval>>, TransformError>)
    ensures r.Ok? <==> Plan(outs, dests).Ok?
    ensures r.Err? ==> r.error == Plan(outs, dests).error
    ensures r.Ok? ==> (|r.value| == |dests| &&
              forall i :: 0 <= i < |dests| ==>
                (r.value[i].None? <==> (dests[i].downloadUrl.Null? || dests[i].downloadUrl == Str(""))) &&
                (r.value[i].Some? ==> r.value[i].value == PlanOne(i, outs, dests[i]).value))
  {
    match Plan(outs, dests)
    case Err(e) => Err(e)
    case Ok(plan) =>
      Ok(seq(|plan|, i requires 0 <= i < |plan| => if plan[i] == Ready(Uploaded) then None else Some(plan[i])))
  }

  /** `gather` refuses an argument that is not awaitable. */
  function GatherAsWritten(tasks: seq<Option<Retrieval>>, fetch: string -> DownloadReply): (r: Result<seq<Artifact>, TransformError>)
    ensures (exists i :: 0 <= i < |tasks| && tasks[i].None?) ==> r == Err(NotAwaitable)
    ensures (forall i :: 0 <= i < |tasks| ==> tasks[i].Some?) ==>
              (r.Ok? <==> forall i :: 0 <= i < |tasks| ==> Retrieve(tasks[i].value, fetch).Ok?)
    ensures (forall i :: 0 <= i < |tasks| ==> tasks[i].Some?) && r.Ok? ==>
              (|r.value| == |tasks| &&
               forall i :: 0 <= i < |tasks| ==> r.value[i] == Retrieve(tasks[i].value, fetch).value)
  {
    if exists i :: 0 <= i < |tasks| && tasks[i].None? then Err(NotAwaitable)
    else
      var plan := seq(|tasks|, i requires 0 <= i < |tasks| => tasks[i].value);
      assert forall i :: 0 <= i < |tasks| ==> plan[i] == tasks[i].value;
      Gather(plan, fetch)
  }

  /** As written, any server output without a download URL makes the
      whole call fail, whatever the other downloads do. */
  lemma SentinelAsWrittenFails(outs: seq<OutputOptions>, dests: seq<ServerOutput>, fetch: string -> DownloadReply, i: nat)
    requires Plan(outs, dests).Ok? && i < |dests|
    requires dests[i].downloadUrl.Null? || dests[i].downloadUrl == Str("")
    ensures PlanAsWritten(outs, dests).Ok?
    ensures GatherAsWritten(PlanAsWritten(outs, dests).value, fetch) == Err(NotAwaitable)
  {
    var tasks := PlanAsWritten(outs, dests).value;
    assert tasks[i].None?;
  }

  /** With the sentinel an awaitable, such an output is delivered as
      `Uploaded` and cannot make the call fail. */
  lemma {:induction false} SentinelCorrected(outs: seq<OutputOptions>, dests: seq<ServerOutput>, fetch: string -> DownloadReply, i: nat)
    requires Plan(outs, dests).Ok? && i < |dests|
    requires dests[i].downloadUrl.Null? || dests[i].downloadUrl == Str("")
    ensures Retrieve(Plan(outs, dests).value[i], fetch) == Ok(Uploaded)
    ensures Gather(Plan(outs, dests).value, fetch).Ok? ==> Gather(Plan(outs, dests).value, fetch).value[i] == Uploaded
  {
  }

  /** A concrete input: one requested output, which the server delivered
      by upload. The code as written fails; the corrected code returns
      the sentinel. */
  lemma SentinelExample()
    ensures var outs := [OutputOptions(Fit(200, 200, false), "jpeg", None, None, JNull)];
            var dests := [ServerOutput(Null, Str("f1"), JNull, JNull)];
            var fetch := (url: string) => DownloadReply(404, "", []);
            PlanAsWritten(outs, dests).Ok? &&
            GatherAsWritten(PlanAsWritten(outs, dests).value, fetch) == Err(NotAwaitable) &&
            Gather(Plan(outs, dests).value, fetch) == Ok([Uploaded])
  {
    var outs := [OutputOptions(Fit(200, 200, false), "jpeg", None, None, JNull)];
    var dests := [ServerOutput(Null, Str("f1"), JNull, JNull)];
    var fetch := (url: string) => DownloadReply(404, "", []);
    SentinelAsWrittenFails(outs, dests, fetch, 0);
    SentinelCorrected(outs, dests, fetch, 0);
    var plan := Plan(outs, dests).value;
    assert plan == [Ready(Uploaded)];
    assert Retrieve(plan[0], fetch).Ok?;
    assert Gather(plan, fetch).value == [Uploaded];
  }

  // ------------------------------------------------------------ example

  /** A local file with one output kept in memory: the signing request
      names "body", the file's bytes are uploaded with their length, the
      downloaded bytes come back as a single image, and the cleanup names
      the one file id. */
  lemma LocalFileExample(readFile: string -> seq<int>, fetch: string -> DownloadReply)
    requires readFile("cat.png") == [1, 2, 3]
    requires fetch("https://dl/f1") == DownloadReply(200, "", [9, 9])
    ensures var out := OutputOptions(Fit(200, 200, false), "jpeg", None, None, JNull);
            var opts := TransformOptions(InputOptions(None, Some("cat.png"), None), Single(out));
            var fit := FitToDict(Fit(200, 200, false));
            var dests := [ServerOutput(Str("https://dl/f1"), Str("f1"), fit, JNull)];
            var r := TransformCall(Ok(TokenBroker.Token("t", 100)), opts, SignReply(200, "", "https://up"), readFile,
                                   TransformReply(200, "", ServerResponse(JNull, dests, "https://del")), fetch);
            r.sign == Some(ApiTransformOptionsToDict(ApiTransformOptions("body", [ApiOutput(Fit(200, 200, false), "jpeg", None, JNull, JNull)]))) &&
            r.upload == Some(("https://up", UploadRequest([("Content-Type", "application/octet-stream"), ("Content-Length", "3")], Some([1, 2, 3])))) &&
            r.delete == Some(("https://del", JObj([("images", JArr([JStr("f1")]))]))) &&
            r.result == Ok(TransformResponse(JNull, One(OutputImage(fit, JNull, Bytes([9, 9])))))
  {
    var out := OutputOptions(Fit(200, 200, false), "jpeg", None, None, JNull);
    var opts := TransformOptions(InputOptions(None, Some("cat.png"), None), Single(out));
    var fit := FitToDict(Fit(200, 200, false));
    var dests := [ServerOutput(Str("https://dl/f1"), Str("f1"), fit, JNull)];
    assert NormalizeOutputs(opts.output) == Ok([out]);
    assert SignOptions(opts).value == ApiTransformOptions("body", [ApiOutput(Fit(200, 200, false), "jpeg", None, JNull, JNull)]);
    assert Decimal(3) == "3";
    assert UploadRequestFor(opts.input, readFile) == OctetStream([1, 2, 3]);
    assert PlanOne(0, [out], dests[0]) == Ok(ToBuffer("https://dl/f1"));
    var plan := Plan([out], dests).value;
    assert plan == [ToBuffer("https://dl/f1")];
    assert Retrieve(plan[0], fetch) == Ok(Bytes([9, 9]));
    assert Gather(plan, fetch).value == [Bytes([9, 9])];
    assert FileIds(dests) == ["f1"];
    assert DeleteBody(dests).fields[0].1.items == [JStr("f1")];
    assert Assemble(opts.output, dests, [Bytes([9, 9])]) == Ok(One(OutputImage(fit, JNull, Bytes([9, 9]))));
  }
}
