/**
 * The text-processing routes: one text, a batch of texts, a text split into
 * paragraphs, and the job-status query. The routes hold their own rewrite
 * service and their own document processor (with its own rewrite service);
 * any exception a handler meets becomes an HTTP 500 error carrying the
 * exception's message.
 *
 * Elapsed times come from the clock and are parameters.
 */
module DocumentRoutes {
  import opened Wrappers
  import opened Text
  import opened OpenAI
  import opened DocumentProcessing
  import opened Jobs

  /** An `HTTPException`. */
  datatype HttpError = HttpError(statusCode: int, detail: string)

  /** The `except Exception as e` of every text handler. */
  function InternalError(message: string): HttpError {
    HttpError(500, message)
  }

  datatype TextResponse = TextResponse(original: string, rewritten: string, cleaned: string, processingTime: real)

  datatype BatchTextResponse = BatchTextResponse(results: seq<TextResponse>, totalProcessingTime: real)

  /** The uploaded file names of a completed job. */
  type Files = map<string, string>

  datatype ProcessingResponse = ProcessingResponse(
    jobId: string, status: ProcessingStatus, message: string, files: Option<Files>)

  const StatusMessage := "Processing status retrieved"

  const ParagraphSeparator := "\n\n"

  // ---------------------------------------------------------------------------
  // Pure assembly

  /** `[p for p in text.split("\n\n") if p.strip()]`. */
  function Paragraphs(text: string): seq<string> {
    NonBlank(Split(text, ParagraphSeparator))
  }

  /** The kept paragraphs are exactly the non-blank pieces of the split, none
      of them holds a paragraph break, and when no piece is blank joining them
      back gives the text. */
  lemma ParagraphsOfText(text: string)
    ensures forall i | 0 <= i < |Paragraphs(text)| :: !IsBlank(Paragraphs(text)[i])
    ensures forall p :: p in Paragraphs(text) <==> p in Split(text, ParagraphSeparator) && !IsBlank(p)
    ensures forall p, i: nat | p in Paragraphs(text) :: !OccursAt(p, ParagraphSeparator, i)
    ensures (forall p | p in Split(text, ParagraphSeparator) :: !IsBlank(p)) ==>
      Join(Paragraphs(text), ParagraphSeparator) == text
  {
    var pieces := Split(text, ParagraphSeparator);
    NonBlankMembers(pieces);
    forall p, i: nat | p in Paragraphs(text)
      ensures !OccursAt(p, ParagraphSeparator, i)
    {
      var k :| 0 <= k < |pieces| && pieces[k] == p;
      SplitPiecesFree(text, ParagraphSeparator, k, i);
    }
    if forall p | p in pieces :: !IsBlank(p) {
      NonBlankKeepsClean(pieces);
      JoinSplit(text, ParagraphSeparator);
    }
  }

  /** The response list of `process_text_batch`: `zip` of the originals, the
      rewrites and the cleanups, each with an equal share of the total time.
      The share is computed per item only, so an empty batch never divides. */
  function Responses(texts: seq<string>, rewritten: seq<string>, cleaned: seq<string>, total: real)
    : (rs: seq<TextResponse>)
    ensures |rs| <= |texts| && |rs| <= |rewritten| && |rs| <= |cleaned|
    ensures |texts| == |rewritten| == |cleaned| ==> |rs| == |texts|
    ensures forall i | 0 <= i < |rs| ::
      rs[i] == TextResponse(texts[i], rewritten[i], cleaned[i], total / (|texts| as real))
  {
    var n := if |texts| <= |rewritten| && |texts| <= |cleaned| then |texts|
             else if |rewritten| <= |cleaned| then |rewritten| else |cleaned|;
    seq(n, i requires 0 <= i < n => TextResponse(texts[i], rewritten[i], cleaned[i], total / (|texts| as real)))
  }

  /** What the cleanup pass makes of a list of rewrites when the processor's
      rotation stands at `cursor`: item `i` is the cleanup of rewrite `i`, or
      the rewrite itself when that call failed. */
  function Cleanups(provider: Provider, keys: seq<string>, cursor: nat, rewritten: seq<string>): seq<string>
    requires cursor < |keys|
  {
    var outs := Outcomes(provider, keys, cursor, InStyle(CleanupStyle), rewritten);
    seq(|rewritten|, i requires 0 <= i < |rewritten| => outs[i].GetOr(rewritten[i]))
  }

  /** `get_processing_status`: the files are exposed only for a Completed job. */
  function StatusResponse(q: QueueService<Files>, jobId: string): (r: ProcessingResponse)
    reads q
    ensures r.jobId == jobId && r.status == q.GetJobStatus(jobId) && r.message == StatusMessage
    ensures r.files.Some? ==> r.status == Completed
  {
    var status := q.GetJobStatus(jobId);
    var result := q.GetJobResult(jobId);
    ProcessingResponse(jobId, status, StatusMessage, if status == Completed then result else None)
  }

  /** On a consistent job table a Completed job always shows its files, and an
      unknown id shows Failed and no files. */
  lemma StatusShowsFiles(q: QueueService<Files>, jobId: string)
    requires q.Valid()
    ensures StatusResponse(q, jobId).status == Completed ==> StatusResponse(q, jobId).files == Some(q.results[jobId])
    ensures jobId !in q.status ==> StatusResponse(q, jobId).status == Failed && StatusResponse(q, jobId).files == None
  {
    StatusReadBack(q, jobId);
  }

  // ---------------------------------------------------------------------------
  // Handlers

  /** `process_text`: the rewrite of the content in the requested style, then
      its cleanup by the processor; a failed rewrite is a 500 error, a failed
      cleanup falls back to the rewrite. */
  method ProcessText(svc: OpenAIService, proc: DocumentProcessor, provider: Provider,
                     content: string, style: string, elapsed: real)
    returns (r: Result<TextResponse, HttpError>)
    requires svc.Valid() && proc.Valid() && svc != proc.openai
    modifies svc`cursor, svc`issued, proc.openai`cursor, proc.openai`issued
    ensures svc.Valid() && proc.Valid()
    ensures svc.apiKeys == old(svc.apiKeys) && proc.openai.apiKeys == old(proc.openai.apiKeys)
    ensures var rw := Guarded(provider, old(svc.apiKeys[svc.cursor]), InStyle(style), content);
      && (rw.Err? ==> r == Err(InternalError(rw.error)))
      && (rw.Ok? ==> r == Ok(TextResponse(content, rw.value,
            Guarded(provider, old(proc.openai.apiKeys[proc.openai.cursor]), InStyle(CleanupStyle), rw.value).GetOr(rw.value),
            elapsed)))
    // the route's service takes a key exactly when the content is not blank
    ensures IsBlank(content) ==> svc.cursor == old(svc.cursor) && svc.issued == old(svc.issued)
    ensures !IsBlank(content) ==>
      svc.cursor == (old(svc.cursor) + 1) % |svc.apiKeys| && svc.issued == old(svc.issued) + [old(svc.apiKeys[svc.cursor])]
    // the processor's service takes a key exactly when the rewrite succeeded with non-blank text
    ensures var rw := Guarded(provider, old(svc.apiKeys[svc.cursor]), InStyle(style), content);
      if rw.Ok? && !IsBlank(rw.value) then
        proc.openai.cursor == (old(proc.openai.cursor) + 1) % |proc.openai.apiKeys|
        && proc.openai.issued == old(proc.openai.issued) + [old(proc.openai.apiKeys[proc.openai.cursor])]
      else
        proc.openai.cursor == old(proc.openai.cursor) && proc.openai.issued == old(proc.openai.issued)
  {
    var rewritten := svc.RewriteTextChunk(provider, content, style);
    if rewritten.Err? {
      return Err(InternalError(rewritten.error));
    }
    var cleaned := proc.CleanText(provider, rewritten.value, content);
    r := Ok(TextResponse(content, rewritten.value, cleaned, elapsed));
  }

  /** The `asyncio.gather` of `clean_text` over `zip(rewritten, originals)`. */
  method CleanAll(proc: DocumentProcessor, provider: Provider, rewritten: seq<string>, originals: seq<string>)
    returns (cleaned: seq<string>)
    requires proc.Valid()
    requires |rewritten| == |originals|
    modifies proc.openai`cursor, proc.openai`issued
    ensures proc.Valid() && proc.openai.apiKeys == old(proc.openai.apiKeys)
    ensures cleaned == Cleanups(provider, proc.openai.apiKeys, old(proc.openai.cursor), rewritten)
    ensures proc.openai.cursor == Advance(old(proc.openai.cursor), |proc.openai.apiKeys|, |NonBlank(rewritten)|)
    ensures |proc.openai.issued| == |old(proc.openai.issued)| + |NonBlank(rewritten)|
  {
    ghost var keys := proc.openai.apiKeys;
    ghost var c0 := proc.openai.cursor;
    cleaned := [];
    var i := 0;
    while i < |rewritten|
      invariant 0 <= i <= |rewritten|
      invariant proc.Valid() && proc.openai.apiKeys == keys
      invariant proc.openai.cursor == Advance(c0, |keys|, |NonBlank(rewritten[..i])|)
      invariant |proc.openai.issued| == |old(proc.openai.issued)| + |NonBlank(rewritten[..i])|
      invariant |cleaned| == i
      invariant forall j | 0 <= j < i :: cleaned[j] == Cleanups(provider, keys, c0, rewritten)[j]
    {
      ghost var before := proc.openai.cursor;
      var c := proc.CleanText(provider, rewritten[i], originals[i]);
      CleanupAt(provider, keys, c0, rewritten, i);
      CursorStep(keys, c0, rewritten, i, before, proc.openai.cursor);
      cleaned := cleaned + [c];
      i := i + 1;
    }
    assert rewritten[..i] == rewritten;
  }

  /** One cleanup call moves the rotation exactly as one more item of the
      rewrites does. */
  lemma CursorStep(keys: seq<string>, c0: nat, rewritten: seq<string>, i: nat, before: nat, after: nat)
    requires c0 < |keys| && i < |rewritten|
    requires before == Advance(c0, |keys|, |NonBlank(rewritten[..i])|)
    requires IsBlank(rewritten[i]) ==> after == before
    requires !IsBlank(rewritten[i]) ==> after == Advance(before, |keys|, 1)
    ensures after == Advance(c0, |keys|, |NonBlank(rewritten[..i + 1])|)
    ensures |NonBlank(rewritten[..i + 1])| == |NonBlank(rewritten[..i])| + (if IsBlank(rewritten[i]) then 0 else 1)
  {
    assert rewritten[..i + 1] == rewritten[..i] + [rewritten[i]];
    NonBlankAppend(rewritten[..i], [rewritten[i]]);
    assert NonBlank([rewritten[i]]) == if IsBlank(rewritten[i]) then [] else [rewritten[i]];
    AdvanceAdd(c0, |keys|, |NonBlank(rewritten[..i])|, |NonBlank([rewritten[i]])|);
  }

  /** Item `i` of the cleanups uses the key the rotation reaches after the
      non-blank rewrites before it. */
  lemma CleanupAt(provider: Provider, keys: seq<string>, c0: nat, rewritten: seq<string>, i: nat)
    requires c0 < |keys| && i < |rewritten|
    ensures Cleanups(provider, keys, c0, rewritten)[i]
         == Guarded(provider, keys[Advance(c0, |keys|, |NonBlank(rewritten[..i])|)], InStyle(CleanupStyle), rewritten[i])
              .GetOr(rewritten[i])
  {
    OutcomesAt(provider, keys, c0, InStyle(CleanupStyle), rewritten, i);
  }

  /** `process_text_batch`: all texts rewritten in order, each rewrite cleaned,
      and one response per text in input order; if any rewrite fails the whole
      request is a 500 error and no cleanup runs. */
  method ProcessTextBatch(svc: OpenAIService, proc: DocumentProcessor, provider: Provider,
                          texts: seq<string>, style: string, total: real)
    returns (r: Result<BatchTextResponse, HttpError>)
    requires svc.Valid() && proc.Valid() && svc != proc.openai
    modifies svc`cursor, svc`issued, proc.openai`cursor, proc.openai`issued
    ensures svc.Valid() && proc.Valid()
    ensures svc.apiKeys == old(svc.apiKeys) && proc.openai.apiKeys == old(proc.openai.apiKeys)
    ensures svc.cursor == Advance(old(svc.cursor), |svc.apiKeys|, |NonBlank(texts)|)
    ensures |svc.issued| == |old(svc.issued)| + |NonBlank(texts)|
    ensures var rw := Gather(Outcomes(provider, old(svc.apiKeys), old(svc.cursor), InStyle(style), texts));
      && (rw.Err? ==> r == Err(InternalError(rw.error)))
      && (rw.Err? ==> proc.openai.cursor == old(proc.openai.cursor) && proc.openai.issued == old(proc.openai.issued))
      && (rw.Ok? ==>
            proc.openai.cursor == Advance(old(proc.openai.cursor), |proc.openai.apiKeys|, |NonBlank(rw.value)|)
            && |proc.openai.issued| == |old(proc.openai.issued)| + |NonBlank(rw.value)|)
      && (rw.Ok? ==> r.Ok? && r.value.totalProcessingTime == total && |r.value.results| == |texts|)
      && (rw.Ok? ==> var cl := Cleanups(provider, old(proc.openai.apiKeys), old(proc.openai.cursor), rw.value);
            forall i | 0 <= i < |texts| ::
              r.value.results[i] == TextResponse(texts[i], rw.value[i], cl[i], total / (|texts| as real)))
  {
    var rewritten := svc.ProcessTextBatch(provider, texts, style);
    if rewritten.Err? {
      return Err(InternalError(rewritten.error));
    }
    var cleaned := CleanAll(proc, provider, rewritten.value, texts);
    r := Ok(BatchTextResponse(Responses(texts, rewritten.value, cleaned, total), total));
  }

  /** `process_paragraphs`: the non-blank paragraphs of the text rewritten in
      order and joined with a blank line; every kept paragraph takes one key;
      a failed rewrite is a 500 error. */
  method ProcessParagraphs(svc: OpenAIService, provider: Provider, text: string, style: string)
    returns (r: Result<string, HttpError>)
    requires svc.Valid()
    modifies svc`cursor, svc`issued
    ensures svc.Valid() && svc.apiKeys == old(svc.apiKeys)
    ensures var rw := Gather(Outcomes(provider, old(svc.apiKeys), old(svc.cursor), InStyle(style), Paragraphs(text)));
      && (rw.Err? ==> r == Err(InternalError(rw.error)))
      && (rw.Ok? ==> r == Ok(Join(rw.value, ParagraphSeparator)) && |rw.value| == |Paragraphs(text)|)
    ensures svc.cursor == Advance(old(svc.cursor), |svc.apiKeys|, |Paragraphs(text)|)
    ensures |svc.issued| == |old(svc.issued)| + |Paragraphs(text)|
  {
    var paragraphs := Paragraphs(text);
    NonBlankMembers(Split(text, ParagraphSeparator));
    NonBlankKeepsClean(paragraphs);
    var rewritten := svc.ProcessTextBatch(provider, paragraphs, style);
    if rewritten.Err? {
      return Err(InternalError(rewritten.error));
    }
    r := Ok(Join(rewritten.value, ParagraphSeparator));
  }
}
