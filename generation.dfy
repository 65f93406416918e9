/** The FusionBrain generation client (`Text2ImageAPI`): pick a model, submit a
    job, poll its status a bounded number of times, strip data-URI headers and
    name the saved files. Every HTTP reply is an input; decoding and writing
    images are opaque. */
module Generation {
  import opened Common
  import Decimal

  type ModelId = int

  /** The outcome of one HTTP request: the parsed JSON body, or a non-success
      status, which `raise_for_status` turns into an exception. */
  datatype Reply<T> = Ok(body: T) | HttpError

  /** One entry of the model listing; `id` is `None` when the entry has no "id" key. */
  datatype ModelEntry = ModelEntry(id: Option<ModelId>)

  /** The exceptions the client raises, one constructor per raise site. */
  datatype Error =
    | TransportError                                 // raise_for_status
    | NoModelsAvailable                              // empty listing
    | MissingModelId                                 // KeyError on models[0]["id"]
    | MissingUuid                                    // submission reply without "uuid"
    | GenerationFailed(description: Option<string>)  // status "FAIL"
    | EmptyResult                                    // status "DONE" without images
    | GenerationTimeout                              // attempts exhausted

  // ---------------------------------------------------------------- get_model

  /** `get_model`: the id of the first listed model. */
  function GetModel(listing: Reply<seq<ModelEntry>>): (r: Result<ModelId, Error>)
    ensures r.Success? <==> listing.Ok? && |listing.body| > 0 && listing.body[0].id.Some?
    ensures r.Success? ==> r.value == listing.body[0].id.value
    ensures listing.HttpError? ==> r == Failure(TransportError)
    ensures listing == Ok([]) ==> r == Failure(NoModelsAvailable)
    ensures listing.Ok? && |listing.body| > 0 && listing.body[0].id.None? ==> r == Failure(MissingModelId)
  {
    match listing
    case HttpError => Failure(TransportError)
    case Ok(models) =>
      if |models| == 0 then Failure(NoModelsAvailable)
      else if models[0].id.None? then Failure(MissingModelId)
      else Success(models[0].id.value)
  }

  // ----------------------------------------------------------------- generate

  const DEFAULT_IMAGES: int := 1
  const DEFAULT_SIZE: (int, int) := (1024, 1024)

  datatype GenerateParams = GenerateParams(query: string)

  /** The JSON object sent as the "params" part; `requestType` is its "type" key and
      `negativePromptUnclip` is `None` when that key is absent. */
  datatype Params = Params(
    requestType: string,
    numImages: int,
    width: int,
    height: int,
    style: string,
    generateParams: GenerateParams,
    negativePromptUnclip: Option<string>)
  {
    /** The keys of the JSON object `json.dumps` makes of these parameters. */
    function JsonKeys(): set<string> {
      {"type", "numImages", "width", "height", "style", "generateParams"}
      + (if negativePromptUnclip.Some? then {"negativePromptUnclip"} else {})
    }
  }

  /** The multipart request: the "model_id" part and the "params" part. */
  datatype RunRequest = RunRequest(modelId: ModelId, params: Params)

  /** The submission reply; `uuid` is `None` when the body has no "uuid" key. */
  datatype SubmitBody = SubmitBody(uuid: Option<string>)

  /** What the parameters of one submission are, whatever the prompts hold. */
  predicate ParamsFor(p: Params, positiveRequest: string, style: string,
                      negativeRequest: Option<string>, images: int, size: (int, int))
  {
    && p.requestType == "GENERATE"
    && p.numImages == images
    && p.width == size.0
    && p.height == size.1
    && p.style == style
    && p.generateParams == GenerateParams(positiveRequest)
    && ("negativePromptUnclip" in p.JsonKeys() <==> Truthy(negativeRequest))
    && (p.negativePromptUnclip.Some? ==> p.negativePromptUnclip == negativeRequest)
  }

  /** `generate`: build the parameters, add the negative prompt only when it is
      truthy, post them, and return the job id of the reply. */
  method Generate(positiveRequest: string, style: string, model: ModelId,
                  negativeRequest: Option<string>, images: int, size: (int, int),
                  reply: Reply<SubmitBody>)
    returns (request: RunRequest, job: Result<string, Error>)
    ensures request.modelId == model
    ensures ParamsFor(request.params, positiveRequest, style, negativeRequest, images, size)
    ensures reply.HttpError? ==> job == Failure(TransportError)
    ensures reply.Ok? && reply.body.uuid.None? ==> job == Failure(MissingUuid)
    ensures reply.Ok? && reply.body.uuid.Some? ==> job == Success(reply.body.uuid.value)
  {
    var params := Params("GENERATE", images, size.0, size.1, style,
                         GenerateParams(positiveRequest), None);
    if Truthy(negativeRequest) {
      params := params.(negativePromptUnclip := Some(negativeRequest.value));
    }
    request := RunRequest(model, params);
    if reply.HttpError? {
      return request, Failure(TransportError);
    }
    if reply.body.uuid.None? {
      return request, Failure(MissingUuid);
    }
    job := Success(reply.body.uuid.value);
  }

  // ----------------------------------------------------------- base64_to_image

  /** The index of the first comma in `s`, or `|s|` when there is none. */
  function FirstComma(s: string): (i: nat)
    ensures i <= |s|
    ensures forall j :: 0 <= j < i ==> s[j] != ','
    ensures i < |s| ==> s[i] == ','
    ensures i == |s| ==> ',' !in s
  {
    if s == [] || s[0] == ',' then 0 else 1 + FirstComma(s[1..])
  }

  /** The text `b64decode` receives: `s.split(",", 1)[1]` when `s` holds a comma,
      else `s` itself. */
  function StripDataUriHeader(s: string): (r: string)
    ensures ',' !in s ==> r == s
    ensures ',' in s ==> (&& |r| < |s|
                          && s == s[..|s| - |r| - 1] + [','] + r
                          && ',' !in s[..|s| - |r| - 1])
  {
    if ',' in s then
      var i := FirstComma(s);
      assert s == s[..i] + [','] + s[i + 1..];
      s[i + 1..]
    else s
  }

  /** A header without a comma, a comma, and a payload strip to the payload. */
  lemma StripHeaderComma(header: string, payload: string)
    requires ',' !in header
    ensures StripDataUriHeader(header + [','] + payload) == payload
  {
    var s := header + [','] + payload;
    assert s[|header|] == ',';
    assert forall j :: 0 <= j < |header| ==> s[j] == header[j];
    assert s[|header| + 1..] == payload;
  }

  const PNG_DATA_URI_HEADER: string := "data:image/png;base64"

  /** A decoded image. `b64decode` and `Image.open` are opaque, so an image is
      identified by the text it was decoded from. */
  datatype Image = Image(base64Payload: string)

  /** `base64_to_image`. */
  function Base64ToImage(s: string): (image: Image)
    ensures ',' !in s ==> image == Image(s)
    ensures ',' in s ==> |image.base64Payload| < |s|
  {
    Image(StripDataUriHeader(s))
  }

  /** A payload decodes to the same image with or without a PNG data-URI header. */
  lemma DataUriDecodesAlike(payload: string)
    requires ',' !in payload
    ensures Base64ToImage(PNG_DATA_URI_HEADER + "," + payload) == Base64ToImage(payload)
  {
    assert forall j :: 0 <= j < |PNG_DATA_URI_HEADER| ==> PNG_DATA_URI_HEADER[j] != ',';
    StripHeaderComma(PNG_DATA_URI_HEADER, payload);
  }

  // ---------------------------------------------------------------- save_image

  /** `os.path.join(dir, name)` on POSIX. */
  function Join(dir: string, name: string): string {
    if |name| > 0 && name[0] == '/' then name
    else if dir == [] || dir[|dir| - 1] == '/' then dir + name
    else dir + "/" + name
  }

  /** The file name `save_image` gives the image at `index`. */
  function ImageFileName(index: nat): (name: string)
    ensures |name| > 4 && name[|name| - 4..] == ".png"
    ensures Decimal.IsDigits(name[..|name| - 4])
    ensures Decimal.DecimalValue(name[..|name| - 4]) == index + 1
    ensures name[0] != '/'
  {
    var digits := Decimal.NatToDecimal(index + 1);
    Decimal.DecimalRoundTrip(index + 1);
    assert (digits + ".png")[..|digits|] == digits;
    digits + ".png"
  }

  /** The path `save_image` returns for the image at `index`. */
  function ImagePath(index: nat, savePath: string): (path: string)
    ensures var name := ImageFileName(index);
      && |name| <= |path| && path[|path| - |name|..] == name
      && path[..|path| - |name|]
         == if savePath == [] || savePath[|savePath| - 1] == '/' then savePath else savePath + "/"
  {
    Join(savePath, ImageFileName(index))
  }

  /** The paths of `n` saved images, in provider order. */
  function ImagePaths(n: nat, savePath: string): (r: seq<string>)
    ensures |r| == n
    ensures forall i :: 0 <= i < n ==> r[i] == ImagePath(i, savePath)
  {
    seq(n, (i: int) requires 0 <= i => ImagePath(i, savePath))
  }

  /** The first image is saved as "1.png", the second as "2.png". */
  lemma FirstFileNames()
    ensures ImageFileName(0) == "1.png" && ImageFileName(1) == "2.png"
    ensures ImagePath(0, "img") == "img/1.png" && ImagePath(1, "img") == "img/2.png"
  {
  }

  /** Two images of one job never share a path. */
  lemma ImagePathsDistinct(i: nat, j: nat, savePath: string)
    requires i != j
    ensures ImagePath(i, savePath) != ImagePath(j, savePath)
  {
    var a, b := Decimal.NatToDecimal(i + 1), Decimal.NatToDecimal(j + 1);
    Decimal.NatToDecimalInjective(i + 1, j + 1);
    var x, y := ImageFileName(i), ImageFileName(j);
    assert x[..|a|] == a && y[..|b|] == b;
    assert |a| == |b| ==> x[..|a|] != y[..|a|];
    assert x != y;
    var prefix := if savePath == [] || savePath[|savePath| - 1] == '/' then savePath else savePath + "/";
    assert ImagePath(i, savePath) == prefix + x && ImagePath(j, savePath) == prefix + y;
    assert (prefix + x)[|prefix|..] == x && (prefix + y)[|prefix|..] == y;
  }

  // ---------------------------------------------------------- check_generation

  /** The parsed body of one status reply: "status" (`None` when absent),
      `data.get("images", [])` (a missing or null list is empty) and
      "errorDescription". */
  datatype StatusBody = StatusBody(status: Option<string>, images: seq<string>,
                                   errorDescription: Option<string>)

  /** A status reply that ends the poll loop. */
  predicate IsTerminal(r: Reply<StatusBody>) {
    r.HttpError? || r.body.status == Some("DONE") || r.body.status == Some("FAIL")
  }

  /** What the poll loop returns or raises on a terminal reply. */
  function TerminalResult(r: Reply<StatusBody>, savePath: string): Result<seq<string>, Error>
    requires IsTerminal(r)
  {
    if r.HttpError? then Failure(TransportError)
    else if r.body.status == Some("DONE") then
      if r.body.images == [] then Failure(EmptyResult)
      else Success(ImagePaths(|r.body.images|, savePath))
    else Failure(GenerationFailed(r.body.errorDescription))
  }

  /** The result of a poll loop with the numbers of status requests and sleeps it made. */
  datatype Poll = Poll(result: Result<seq<string>, Error>, requests: nat, sleeps: nat)

  /** The poll loop from attempt `k` on, when the reply to status request number `j`
      (counted from 0) is `respond(j)`. */
  function PollFrom(respond: nat -> Reply<StatusBody>, k: nat, attempts: int,
                    savePath: string): Poll
    decreases attempts - k
  {
    if k >= attempts then Poll(Failure(GenerationTimeout), k, k)
    else if IsTerminal(respond(k)) then Poll(TerminalResult(respond(k), savePath), k + 1, k)
    else PollFrom(respond, k + 1, attempts, savePath)
  }

  /** The poll loop of `check_generation`. */
  method CheckGeneration(respond: nat -> Reply<StatusBody>, attempts: int, savePath: string)
    returns (result: Result<seq<string>, Error>, requests: nat, sleeps: nat)
    ensures Poll(result, requests, sleeps) == PollFrom(respond, 0, attempts, savePath)
  {
    requests, sleeps := 0, 0;
    var attempt: nat := 0;
    while attempt < attempts
      invariant requests == attempt && sleeps == attempt
      invariant PollFrom(respond, attempt, attempts, savePath) == PollFrom(respond, 0, attempts, savePath)
      decreases attempts - attempt
    {
      var response := respond(attempt);
      requests := requests + 1;
      if response.HttpError? {
        return Failure(TransportError), requests, sleeps;
      }
      var data := response.body;
      if data.status == Some("DONE") {
        var imagesB64 := data.images;
        if imagesB64 == [] {
          return Failure(EmptyResult), requests, sleeps;
        }
        var imagePaths: seq<string> := [];
        for index := 0 to |imagesB64|
          invariant imagePaths == ImagePaths(index, savePath)
        {
          var image := Base64ToImage(imagesB64[index]);
          var path := ImagePath(index, savePath);
          imagePaths := imagePaths + [path];
        }
        return Success(imagePaths), requests, sleeps;
      } else if data.status == Some("FAIL") {
        return Failure(GenerationFailed(data.errorDescription)), requests, sleeps;
      }
      sleeps := sleeps + 1;
      attempt := attempt + 1;
    }
    result := Failure(GenerationTimeout);
  }

  /** The shape of every poll: at most `attempts` requests; a timeout only after
      `attempts` requests and as many sleeps; otherwise one sleep after each
      non-terminal reply and a result decided by the first terminal one. */
  lemma {:induction false} PollShape(respond: nat -> Reply<StatusBody>, k: nat, attempts: int,
                                     savePath: string)
    requires k <= RangeLength(attempts)
    ensures var p := PollFrom(respond, k, attempts, savePath);
      && k <= p.requests <= RangeLength(attempts)
      && (forall j :: k <= j < p.sleeps ==> !IsTerminal(respond(j)))
      && (p.result == Failure(GenerationTimeout) ==>
            p.requests == RangeLength(attempts) && p.sleeps == p.requests)
      && (p.result != Failure(GenerationTimeout) ==>
            && k < p.requests
            && p.sleeps == p.requests - 1
            && IsTerminal(respond(p.sleeps))
            && p.result == TerminalResult(respond(p.sleeps), savePath))
    decreases attempts - k
  {
    if k < attempts && !IsTerminal(respond(k)) {
      PollShape(respond, k + 1, attempts, savePath);
    }
  }

  /** The loop times out exactly when all `attempts` replies are non-terminal. */
  lemma TimeoutIff(respond: nat -> Reply<StatusBody>, attempts: int, savePath: string)
    ensures PollFrom(respond, 0, attempts, savePath).result == Failure(GenerationTimeout)
            <==> forall j :: 0 <= j < attempts ==> !IsTerminal(respond(j))
  {
    PollShape(respond, 0, attempts, savePath);
  }

  /** When the first terminal reply answers request `k` (counted from 1), the loop
      stops there, after `k` requests and `k - 1` sleeps. */
  lemma FirstTerminalDecides(respond: nat -> Reply<StatusBody>, attempts: int,
                             savePath: string, k: nat)
    requires 1 <= k <= attempts
    requires forall j :: 0 <= j < k - 1 ==> !IsTerminal(respond(j))
    requires IsTerminal(respond(k - 1))
    ensures PollFrom(respond, 0, attempts, savePath)
            == Poll(TerminalResult(respond(k - 1), savePath), k, k - 1)
  {
    PollShape(respond, 0, attempts, savePath);
    var p := PollFrom(respond, 0, attempts, savePath);
    assert p.sleeps <= k - 1;
    assert p.result != Failure(GenerationTimeout);
    assert p.sleeps == k - 1;
  }

  /** "FAIL" on request `k` raises at once, after `k` requests and `k - 1` sleeps. */
  lemma FailStopsPolling(respond: nat -> Reply<StatusBody>, attempts: int,
                         savePath: string, k: nat)
    requires 1 <= k <= attempts
    requires forall j :: 0 <= j < k - 1 ==> !IsTerminal(respond(j))
    requires respond(k - 1).Ok? && respond(k - 1).body.status == Some("FAIL")
    ensures PollFrom(respond, 0, attempts, savePath)
            == Poll(Failure(GenerationFailed(respond(k - 1).body.errorDescription)), k, k - 1)
  {
    FirstTerminalDecides(respond, attempts, savePath, k);
  }

  /** "DONE" with `n >= 1` images on request `k` yields `n` paths, the `i`-th named
      `i + 1`, in provider order. */
  lemma DoneSavesInOrder(respond: nat -> Reply<StatusBody>, attempts: int,
                         savePath: string, k: nat)
    requires 1 <= k <= attempts
    requires forall j :: 0 <= j < k - 1 ==> !IsTerminal(respond(j))
    requires respond(k - 1).Ok? && respond(k - 1).body.status == Some("DONE")
    requires respond(k - 1).body.images != []
    ensures var p := PollFrom(respond, 0, attempts, savePath);
      && p.requests == k && p.sleeps == k - 1
      && p.result.Success?
      && |p.result.value| == |respond(k - 1).body.images|
      && forall i :: 0 <= i < |p.result.value| ==> p.result.value[i] == ImagePath(i, savePath)
  {
    FirstTerminalDecides(respond, attempts, savePath, k);
  }

  /** A successful poll returns at least one path, and no two paths coincide;
      "DONE" without images is never a success. */
  lemma SuccessIsNonEmptyAndDistinct(respond: nat -> Reply<StatusBody>, attempts: int,
                                     savePath: string)
    ensures var p := PollFrom(respond, 0, attempts, savePath);
      p.result.Success? ==>
        && |p.result.value| >= 1
        && forall i, j :: 0 <= i < j < |p.result.value| ==> p.result.value[i] != p.result.value[j]
  {
    PollShape(respond, 0, attempts, savePath);
    var p := PollFrom(respond, 0, attempts, savePath);
    if p.result.Success? {
      forall i, j | 0 <= i < j < |p.result.value|
        ensures p.result.value[i] != p.result.value[j]
      {
        ImagePathsDistinct(i, j, savePath);
      }
    }
  }

  /** Two pending replies, then "DONE" with two images: three requests, two
      sleeps, and the files "img/1.png" and "img/2.png" in provider order. */
  lemma PendingPendingDone(respond: nat -> Reply<StatusBody>, attempts: int,
                           first: string, second: string)
    requires attempts >= 3
    requires !IsTerminal(respond(0)) && !IsTerminal(respond(1))
    requires respond(2) == Ok(StatusBody(Some("DONE"), [first, second], None))
    ensures PollFrom(respond, 0, attempts, "img")
            == Poll(Success(["img/1.png", "img/2.png"]), 3, 2)
  {
    DoneSavesInOrder(respond, attempts, "img", 3);
    FirstFileNames();
    var p := PollFrom(respond, 0, attempts, "img");
    assert p.result.value == ["img/1.png", "img/2.png"];
  }

  /** Three attempts, all pending: a timeout after exactly three requests. */
  lemma AllPendingTimesOut(respond: nat -> Reply<StatusBody>)
    requires forall j :: 0 <= j < 3 ==> !IsTerminal(respond(j))
    ensures PollFrom(respond, 0, 3, "img") == Poll(Failure(GenerationTimeout), 3, 3)
  {
  }
}
