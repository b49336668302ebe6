/**
 * The image-upload endpoint: the form's `image` entry is checked (present, an image
 * type, at most 100 MiB), the ingredients are extracted from it with the image
 * pipeline, and each extracted ingredient is forwarded, one request after another, to
 * the ingredient-creation endpoint. Success redirects to the ingredient list; anything
 * thrown on the way answers 500.
 */
module IngredientImagesRoute {
  import opened Wrappers
  import opened JsValues
  import opened AgentStream
  import opened ImageLlm

  /** An uploaded file: its declared MIME type, its size in bytes and its content in base64. */
  datatype UploadedFile = UploadedFile(mimeType: string, size: nat, content: string)

  /**
   * What `formData.get('image')` yields: nothing, a text field, or a file; or, when the
   * request body cannot be read as form data at all, no entry, because `formData()` rejects.
   */
  datatype FormEntry =
    | Unreadable
    | Missing
    | TextEntry(text: string)
    | FileEntry(file: UploadedFile)

  /** The endpoint's answer: a JSON error with its status, or a redirect. */
  datatype Response =
    | JsonError(status: int, error: string)
    | Redirect(path: string)

  /** The size limit, 100 MiB (the message shown to the user says 10MB). */
  const MaxFileSize: nat := 100 * 1024 * 1024

  const MissingImage: Response := JsonError(400, "画像ファイルが必要です")
  const NotAnImage: Response := JsonError(400, "画像ファイルのみ受け付けます")
  const TooLarge: Response := JsonError(400, "ファイルサイズは10MB以下にしてください")
  const AnalysisFailed: Response := JsonError(500, "画像の解析に失敗しました")

  /** Where the ingredients are forwarded, and where success redirects. */
  const ForwardPath: string := "/api/ingredients"
  const ListPath: string := "/user/ingredients"

  /**
   * The three checks, in order. An unreadable body rejects before any check and is
   * caught as an analysis failure, 500. A missing entry or an empty text is falsy and answers
   * "file required"; a non-empty text has no `type`, so reading it throws and the
   * endpoint answers 500.
   */
  function Validate(entry: FormEntry): (r: Result<UploadedFile, Response>)
    ensures (entry.Missing? || entry == TextEntry("")) ==> r == Failure(MissingImage)
    ensures entry.TextEntry? && entry.text != "" ==> r == Failure(AnalysisFailed)
    ensures entry.FileEntry? ==>
              && (!("image/" <= entry.file.mimeType) ==> r == Failure(NotAnImage))
              && ("image/" <= entry.file.mimeType && entry.file.size > MaxFileSize ==> r == Failure(TooLarge))
              && ("image/" <= entry.file.mimeType && entry.file.size <= MaxFileSize ==> r == Success(entry.file))
    ensures entry.Unreadable? ==> r == Failure(AnalysisFailed)
  {
    match entry
    case Unreadable => Failure(AnalysisFailed)
    case Missing => Failure(MissingImage)
    case TextEntry(text) => if text == "" then Failure(MissingImage) else Failure(AnalysisFailed)
    case FileEntry(file) =>
      if !("image/" <= file.mimeType) then Failure(NotAnImage)
      else if file.size > MaxFileSize then Failure(TooLarge)
      else Success(file)
  }

  /** A file of exactly the limit passes the size check. */
  lemma LimitIsInclusive(mimeType: string, content: string)
    requires "image/" <= mimeType
    ensures Validate(FileEntry(UploadedFile(mimeType, MaxFileSize, content))).Success?
    ensures Validate(FileEntry(UploadedFile(mimeType, MaxFileSize + 1, content))) == Failure(TooLarge)
  {
  }

  /** The type is checked before the size: a large non-image is rejected for its type. */
  lemma TypeCheckedBeforeSize(file: UploadedFile)
    requires !("image/" <= file.mimeType) && file.size > MaxFileSize
    ensures Validate(FileEntry(file)) == Failure(NotAnImage)
  {
  }

  /** The fields of an extracted ingredient that are forwarded. */
  const ForwardedKeys: set<string> := {"name", "quantity", "unit", "expirationDate", "category", "notes"}

  /**
   * The body forwarded for one ingredient: its forwarded fields that are defined (the
   * JSON text leaves undefined ones out), and `updatedAt` set to now.
   */
  function ForwardBody(item: Record, now: int): (body: Record)
    ensures body.Keys == (ForwardedKeys * item.Keys) + {"updatedAt"}
    ensures forall k :: k in ForwardedKeys && k in item ==> body[k] == item[k]
    ensures body["updatedAt"] == JDate(now)
  {
    (map k | k in ForwardedKeys && k in item :: item[k])["updatedAt" := JDate(now)]
  }

  /** The stamps the pipeline added (id, status, creation time) are not forwarded. */
  lemma ForwardDropsStamps(item: Record, now: int)
    ensures "id" !in ForwardBody(item, now) && "status" !in ForwardBody(item, now)
    ensures "createdAt" !in ForwardBody(item, now)
  {
  }

  /** One body per ingredient, in list order. */
  function ForwardBodies(items: seq<Record>, now: int): (bodies: seq<Record>)
    ensures |bodies| == |items|
    ensures forall i :: 0 <= i < |items| ==> bodies[i] == ForwardBody(items[i], now)
  {
    seq(|items|, i requires 0 <= i < |items| => ForwardBody(items[i], now))
  }

  /** The first of the first `n` requests whose sending rejects, if any. */
  function FirstRejected(rejects: nat -> bool, n: nat): (r: Option<nat>)
    ensures r.None? <==> forall k :: 0 <= k < n ==> !rejects(k)
    ensures r.Some? ==> r.value < n && rejects(r.value) && forall k :: 0 <= k < r.value ==> !rejects(k)
  {
    if n == 0 then None
    else
      var earlier := FirstRejected(rejects, n - 1);
      if earlier.Some? then earlier
      else if rejects(n - 1) then Some(n - 1)
      else None
  }

  /** How many requests are sent for `n` ingredients: all, or up to the one that rejects. */
  function SentCount(rejects: nat -> bool, n: nat): (count: nat)
    ensures count <= n
    ensures FirstRejected(rejects, n).None? ==> count == n
    ensures FirstRejected(rejects, n).Some? ==> count == FirstRejected(rejects, n).value + 1
  {
    match FirstRejected(rejects, n)
    case None => n
    case Some(k) => k + 1
  }

  /**
   * The forwarding loop: one request per ingredient, in order, each sent only after the
   * previous one has completed; a request that rejects ends the loop with 500. `rejects(i)`
   * says whether the `i`-th request rejects; its response status is not looked at.
   */
  method ForwardAll(items: seq<Record>, now: int, rejects: nat -> bool)
    returns (response: Response, requests: seq<Record>)
    ensures requests == ForwardBodies(items, now)[..SentCount(rejects, |items|)]
    ensures FirstRejected(rejects, |items|).None? ==> response == Redirect(ListPath)
    ensures FirstRejected(rejects, |items|).Some? ==> response == AnalysisFailed
  {
    requests := [];
    var i := 0;
    while i < |items|
      invariant 0 <= i <= |items|
      invariant requests == ForwardBodies(items, now)[..i]
      invariant FirstRejected(rejects, i).None?
    {
      requests := requests + [ForwardBody(items[i], now)];
      if rejects(i) {
        assert FirstRejected(rejects, i + 1) == Some(i);
        FirstRejectedStable(rejects, i + 1, |items|);
        return AnalysisFailed, requests;
      }
      i := i + 1;
    }
    return Redirect(ListPath), requests;
  }

  /** Once a request has rejected, later ones do not change which one was first. */
  lemma {:induction false} FirstRejectedStable(rejects: nat -> bool, m: nat, n: nat)
    requires m <= n && FirstRejected(rejects, m).Some?
    ensures FirstRejected(rejects, n) == FirstRejected(rejects, m)
    decreases n - m
  {
    if m < n {
      FirstRejectedStable(rejects, m, n - 1);
    }
  }

  /** When no request rejects, every ingredient is forwarded exactly once, in list order. */
  lemma AllForwardedWhenNoneRejects(items: seq<Record>, now: int, rejects: nat -> bool)
    requires forall k :: 0 <= k < |items| ==> !rejects(k)
    ensures ForwardBodies(items, now)[..SentCount(rejects, |items|)] == ForwardBodies(items, now)
  {
  }

  /**
   * The endpoint. `attempts` are the agent invocations the extraction made, `requests`
   * the bodies forwarded. The agent, the evaluator of the extracted text, the id source,
   * the clock reading and the forwarding failures are parameters.
   */
  method Post(entry: FormEntry, agent: Agent, eval: Evaluator, ids: nat -> string, now: int, rejects: nat -> bool)
    returns (response: Response, attempts: seq<Invocation>, requests: seq<Record>)
    ensures Validate(entry).Failure? ==> response == Validate(entry).error && attempts == [] && requests == []
    ensures Validate(entry).Success? ==>
              var run := Pipeline(Call(ImagePrompt(None), Validate(entry).value.content, agent, eval, ids, now),
                                  DefaultMaxRetries);
              && attempts == run.attempts
              && (run.outcome.Failure? ==> response == AnalysisFailed && requests == [])
              && (run.outcome.Success? ==>
                    var items := run.outcome.value;
                    && requests == ForwardBodies(items, now)[..SentCount(rejects, |items|)]
                    && response == (if FirstRejected(rejects, |items|).None? then Redirect(ListPath) else AnalysisFailed))
  {
    var checked := Validate(entry);
    if checked.Failure? {
      return checked.error, [], [];
    }
    var outcome, delays;
    outcome, attempts, delays := GenerateIngredientsFromImage(checked.value.content, None, agent, eval, ids, now);
    if outcome.Failure? {
      return AnalysisFailed, attempts, [];
    }
    response, requests := ForwardAll(outcome.value, now, rejects);
  }
}
