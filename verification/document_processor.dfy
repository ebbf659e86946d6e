/**
 * The document pipeline: paragraphs are rewritten in consecutive batches of
 * `ProcessingBatchSize`, each batch gathered in order, then written out with
 * blank paragraphs dropped; a separate cleanup pass falls back to its input
 * when the call fails.
 *
 * A document is modelled by its list of paragraph texts; reading and writing
 * the `.docx` container is not part of this model.
 */
module DocumentProcessing {
  import opened Wrappers
  import opened Text
  import opened OpenAI

  /** `PROCESSING_BATCH_SIZE` in the settings. */
  const ProcessingBatchSize: nat := 5

  /** The style the cleanup pass asks for. */
  const CleanupStyle := "cleanup"

  /** The slices `s[i:i + size]` for `i` in `range(0, len(s), size)`. */
  function Batches<T>(s: seq<T>, size: nat): seq<seq<T>>
    requires size > 0
    decreases |s|
  {
    if s == [] then []
    else if |s| <= size then [s]
    else [s[..size]] + Batches(s[size..], size)
  }

  /** Concatenation of a list of lists, as repeated `extend` does. */
  function Flatten<T>(bs: seq<seq<T>>): seq<T> {
    if bs == [] then [] else bs[0] + Flatten(bs[1..])
  }

  lemma {:induction false} FlattenAppend<T>(a: seq<seq<T>>, b: seq<seq<T>>)
    ensures Flatten(a + b) == Flatten(a) + Flatten(b)
  {
    if a == [] {
      assert a + b == b;
    } else {
      assert (a + b)[1..] == a[1..] + b;
      FlattenAppend(a[1..], b);
    }
  }

  /** The batches partition the list: concatenated in order they give it back,
      none is empty, none is longer than `size`, and only the last may be
      shorter. */
  lemma {:induction false} BatchesPartition<T>(s: seq<T>, size: nat)
    requires size > 0
    ensures Flatten(Batches(s, size)) == s
    ensures forall k | 0 <= k < |Batches(s, size)| :: 0 < |Batches(s, size)[k]| <= size
    ensures forall k | 0 <= k < |Batches(s, size)| - 1 :: |Batches(s, size)[k]| == size
    decreases |s|
  {
    if s == [] {
    } else if |s| <= size {
      assert Flatten([s]) == s + Flatten([]);
    } else {
      var rest := Batches(s[size..], size);
      BatchesPartition(s[size..], size);
      assert Batches(s, size) == [s[..size]] + rest;
      assert Flatten(Batches(s, size)) == s[..size] + Flatten(rest);
      assert s == s[..size] + s[size..];
    }
  }

  /** The three documents `process_document` returns, each as its paragraphs. */
  datatype Documents = Documents(original: seq<string>, processed: seq<string>, cleaned: seq<string>)

  class DocumentProcessor {
    /** The processor's own rewrite service (not shared with anyone else). */
    const openai: OpenAIService

    ghost predicate Valid()
      reads this, openai
    {
      openai.Valid()
    }

    constructor (keys: seq<string>)
      requires |keys| > 0
      ensures Valid() && fresh(openai)
      ensures openai.apiKeys == keys && openai.cursor == 0 && openai.issued == []
    {
      openai := new OpenAIService(keys);
    }

    /** `_process_paragraph`: blank text comes back unchanged without a call;
        any other text goes through `rewrite_text`, taking one key. */
    method ProcessParagraph(provider: Provider, text: string) returns (r: Result<string, string>)
      requires Valid()
      modifies openai`cursor, openai`issued
      ensures Valid() && openai.apiKeys == old(openai.apiKeys)
      ensures r == Guarded(provider, openai.apiKeys[old(openai.cursor)], AsScholar, text)
      ensures IsBlank(text) ==> r == Ok(text) && openai.cursor == old(openai.cursor) && openai.issued == old(openai.issued)
      ensures !IsBlank(text) ==>
        openai.cursor == Advance(old(openai.cursor), |openai.apiKeys|, 1)
        && openai.issued == old(openai.issued) + [openai.apiKeys[old(openai.cursor)]]
    {
      if IsBlank(text) {
        return Ok(text);
      }
      r := openai.RewriteText(provider, text);
    }

    /** The `asyncio.gather` over `_process_paragraph` for one batch: every
        paragraph is rewritten in order and each non-blank one takes a key,
        whether or not another one fails. */
    method ProcessBatch(provider: Provider, batch: seq<string>) returns (outs: seq<Result<string, string>>)
      requires Valid()
      modifies openai`cursor, openai`issued
      ensures Valid() && openai.apiKeys == old(openai.apiKeys)
      ensures outs == Outcomes(provider, openai.apiKeys, old(openai.cursor), AsScholar, batch)
      ensures openai.cursor == Advance(old(openai.cursor), |openai.apiKeys|, |NonBlank(batch)|)
      ensures |openai.issued| == |old(openai.issued)| + |NonBlank(batch)|
    {
      ghost var c0 := openai.cursor;
      outs := [];
      var i := 0;
      while i < |batch|
        invariant 0 <= i <= |batch|
        invariant Valid() && openai.apiKeys == old(openai.apiKeys)
        invariant outs == Outcomes(provider, openai.apiKeys, c0, AsScholar, batch[..i])
        invariant openai.cursor == Advance(c0, |openai.apiKeys|, |NonBlank(batch[..i])|)
        invariant |openai.issued| == |old(openai.issued)| + |NonBlank(batch[..i])|
      {
        var o := ProcessParagraph(provider, batch[i]);
        MapStep(provider, openai.apiKeys, c0, AsScholar, batch, i, outs, o);
        outs := outs + [o];
        i := i + 1;
      }
      assert batch[..i] == batch;
    }

    /** `process_document`: the paragraphs are rewritten batch by batch, in
        order. On success the result is the three documents: the original and
        the processed paragraphs with blank ones dropped, and the cleaned copy
        of the processed one. The first failing batch stops the run with the
        first failure in the whole list. `slices` are the batches that were
        started: all of them on success, and a prefix of them in any case;
        each of their non-blank paragraphs took one key. */
    method ProcessDocument(provider: Provider, paragraphs: seq<string>)
      returns (r: Result<Documents, string>, ghost slices: seq<seq<string>>)
      requires Valid()
      modifies openai`cursor, openai`issued
      ensures Valid() && openai.apiKeys == old(openai.apiKeys)
      ensures var all := Gather(Outcomes(provider, openai.apiKeys, old(openai.cursor), AsScholar, paragraphs));
        && (r.Ok? <==> all.Ok?)
        && (r.Ok? ==> r.value == Documents(NonBlank(paragraphs), NonBlank(all.value), NonBlank(all.value)))
        && (r.Err? ==> r.error == all.error)
      ensures r.Ok? ==> slices == Batches(paragraphs, ProcessingBatchSize) && Flatten(slices) == paragraphs
      ensures r.Err? ==>
        && |slices| > 0
        && Gather(Outcomes(provider, openai.apiKeys, old(openai.cursor), AsScholar, Flatten(slices[..|slices| - 1]))).Ok?
        && Gather(Outcomes(provider, openai.apiKeys, old(openai.cursor), AsScholar, Flatten(slices))).Err?
      ensures slices <= Batches(paragraphs, ProcessingBatchSize)
      ensures openai.cursor == Advance(old(openai.cursor), |openai.apiKeys|, |NonBlank(Flatten(slices))|)
      ensures |openai.issued| == |old(openai.issued)| + |NonBlank(Flatten(slices))|
    {
      ghost var keys := openai.apiKeys;
      ghost var c0 := openai.cursor;
      var n := |paragraphs|;
      var processed: seq<string> := [];
      var i := 0;
      slices := [];
      while i < n
        invariant 0 <= i <= n
        invariant Valid() && openai.apiKeys == keys
        invariant Flatten(slices) == paragraphs[..i]
        invariant Batches(paragraphs, ProcessingBatchSize) == slices + Batches(paragraphs[i..], ProcessingBatchSize)
        invariant Gather(Outcomes(provider, keys, c0, AsScholar, paragraphs[..i])) == Ok(processed)
        invariant openai.cursor == Advance(c0, |keys|, |NonBlank(paragraphs[..i])|)
        invariant |openai.issued| == |old(openai.issued)| + |NonBlank(paragraphs[..i])|
      {
        var end := if i + ProcessingBatchSize < n then i + ProcessingBatchSize else n;
        var batch := paragraphs[i..end];
        var outs := ProcessBatch(provider, batch);
        NextSlice(paragraphs, i, end, slices);
        BatchStep(provider, keys, c0, paragraphs, i, end, processed, outs);
        ghost var done := slices;
        slices := slices + [batch];
        var g := Gather(outs);
        if g.Err? {
          PrefixFails(provider, keys, c0, paragraphs, end, g.error);
          assert slices[..|slices| - 1] == done;
          return Err(g.error), slices;
        }
        processed := processed + g.value;
        i := end;
      }
      assert paragraphs[..i] == paragraphs;
      var original := CreateDocument(paragraphs);
      var processedDoc := CreateDocument(processed);
      var cleanedDoc := CleanDocument(processedDoc);
      r := Ok(Documents(original, processedDoc, cleanedDoc));
    }

    /** `_create_document`: the paragraphs that are not blank, in their order. */
    method CreateDocument(paragraphs: seq<string>) returns (doc: seq<string>)
      ensures doc == NonBlank(paragraphs)
    {
      doc := [];
      var i := 0;
      while i < |paragraphs|
        invariant 0 <= i <= |paragraphs|
        invariant doc == NonBlank(paragraphs[..i])
      {
        assert paragraphs[..i + 1] == paragraphs[..i] + [paragraphs[i]];
        NonBlankAppend(paragraphs[..i], [paragraphs[i]]);
        if !IsBlank(paragraphs[i]) {
          doc := doc + [paragraphs[i]];
        }
        i := i + 1;
      }
      assert paragraphs[..i] == paragraphs;
    }

    /** `_clean_document`: returns the document it is given. */
    method CleanDocument(doc: seq<string>) returns (cleaned: seq<string>)
      ensures cleaned == doc
    {
      cleaned := doc;
    }

    /** `clean_text`: asks for a rewrite of the rewritten text (not of the
        original, which is not used) in the cleanup style, and returns the
        rewritten text unchanged when that call fails. */
    method CleanText(provider: Provider, rewritten: string, original: string) returns (cleaned: string)
      requires Valid()
      modifies openai`cursor, openai`issued
      ensures Valid() && openai.apiKeys == old(openai.apiKeys)
      ensures cleaned == Guarded(provider, openai.apiKeys[old(openai.cursor)], InStyle(CleanupStyle), rewritten).GetOr(rewritten)
      ensures IsBlank(rewritten) ==>
        cleaned == rewritten && openai.cursor == old(openai.cursor) && openai.issued == old(openai.issued)
      ensures !IsBlank(rewritten) ==>
        openai.cursor == Advance(old(openai.cursor), |openai.apiKeys|, 1)
        && openai.issued == old(openai.issued) + [openai.apiKeys[old(openai.cursor)]]
    {
      var response := openai.RewriteTextChunk(provider, rewritten, CleanupStyle);
      match response
      case Ok(text) => cleaned := text;
      case Err(_) => cleaned := rewritten;
    }
  }

  /** The slice the batch loop takes at offset `i` is the next batch. */
  lemma NextSlice(paragraphs: seq<string>, i: nat, end: nat, slices: seq<seq<string>>)
    requires i < |paragraphs|
    requires end == if i + ProcessingBatchSize < |paragraphs| then i + ProcessingBatchSize else |paragraphs|
    requires Flatten(slices) == paragraphs[..i]
    requires Batches(paragraphs, ProcessingBatchSize) == slices + Batches(paragraphs[i..], ProcessingBatchSize)
    ensures Flatten(slices + [paragraphs[i..end]]) == paragraphs[..end]
    ensures Batches(paragraphs, ProcessingBatchSize)
         == (slices + [paragraphs[i..end]]) + Batches(paragraphs[end..], ProcessingBatchSize)
  {
    var batch := paragraphs[i..end];
    FlattenAppend(slices, [batch]);
    assert Flatten([batch]) == batch + Flatten([]);
    assert paragraphs[..end] == paragraphs[..i] + batch;
    var rest := paragraphs[i..];
    if |rest| <= ProcessingBatchSize {
      assert end == |paragraphs| && batch == rest;
      assert paragraphs[end..] == [];
    } else {
      assert rest[..ProcessingBatchSize] == batch;
      assert rest[ProcessingBatchSize..] == paragraphs[end..];
    }
  }

  /** One step of the batch loop: the keys the batch takes, and what the prefix
      up to the end of the batch gathers to. */
  lemma BatchStep(provider: Provider, keys: seq<string>, c0: nat, paragraphs: seq<string>, i: nat, end: nat,
                  processed: seq<string>, outs: seq<Result<string, string>>)
    requires c0 < |keys| && i <= end <= |paragraphs|
    requires Gather(Outcomes(provider, keys, c0, AsScholar, paragraphs[..i])) == Ok(processed)
    requires outs == Outcomes(provider, keys, Advance(c0, |keys|, |NonBlank(paragraphs[..i])|), AsScholar, paragraphs[i..end])
    ensures Advance(Advance(c0, |keys|, |NonBlank(paragraphs[..i])|), |keys|, |NonBlank(paragraphs[i..end])|)
         == Advance(c0, |keys|, |NonBlank(paragraphs[..end])|)
    ensures |NonBlank(paragraphs[..end])| == |NonBlank(paragraphs[..i])| + |NonBlank(paragraphs[i..end])|
    ensures Gather(outs).Ok? ==>
      Gather(Outcomes(provider, keys, c0, AsScholar, paragraphs[..end])) == Ok(processed + Gather(outs).value)
    ensures Gather(outs).Err? ==>
      Gather(Outcomes(provider, keys, c0, AsScholar, paragraphs[..end])) == Err(Gather(outs).error)
  {
    var a := paragraphs[..i];
    var batch := paragraphs[i..end];
    assert paragraphs[..end] == a + batch;
    CountStep(keys, c0, a, batch);
    GatherStep(provider, keys, c0, a, batch, processed);
  }

  /** The keys taken by a list and then by more paragraphs add up. */
  lemma CountStep(keys: seq<string>, c0: nat, a: seq<string>, b: seq<string>)
    requires c0 < |keys|
    ensures |NonBlank(a + b)| == |NonBlank(a)| + |NonBlank(b)|
    ensures Advance(Advance(c0, |keys|, |NonBlank(a)|), |keys|, |NonBlank(b)|) == Advance(c0, |keys|, |NonBlank(a + b)|)
  {
    NonBlankAppend(a, b);
    AdvanceAdd(c0, |keys|, |NonBlank(a)|, |NonBlank(b)|);
  }

  /** Gathering a successful prefix followed by more paragraphs: the values
      extend the prefix's, or the error is the one the rest reports. */
  lemma GatherStep(provider: Provider, keys: seq<string>, c0: nat, a: seq<string>, b: seq<string>,
                   processed: seq<string>)
    requires c0 < |keys|
    requires Gather(Outcomes(provider, keys, c0, AsScholar, a)) == Ok(processed)
    ensures var rest := Gather(Outcomes(provider, keys, Advance(c0, |keys|, |NonBlank(a)|), AsScholar, b));
      && (rest.Ok? ==> Gather(Outcomes(provider, keys, c0, AsScholar, a + b)) == Ok(processed + rest.value))
      && (rest.Err? ==> Gather(Outcomes(provider, keys, c0, AsScholar, a + b)) == Err(rest.error))
  {
    OutcomesAppend(provider, keys, c0, AsScholar, a, b);
    GatherAppend(Outcomes(provider, keys, c0, AsScholar, a),
                 Outcomes(provider, keys, Advance(c0, |keys|, |NonBlank(a)|), AsScholar, b));
  }

  /** Once a prefix of the list fails to gather, the whole list fails with the
      same error. */
  lemma PrefixFails(provider: Provider, keys: seq<string>, c0: nat, paragraphs: seq<string>, end: nat, e: string)
    requires c0 < |keys| && end <= |paragraphs|
    requires Gather(Outcomes(provider, keys, c0, AsScholar, paragraphs[..end])) == Err(e)
    ensures Gather(Outcomes(provider, keys, c0, AsScholar, paragraphs)) == Err(e)
  {
    var a := paragraphs[..end];
    var b := paragraphs[end..];
    assert paragraphs == a + b;
    var left := Outcomes(provider, keys, c0, AsScholar, a);
    var right := Outcomes(provider, keys, Advance(c0, |keys|, |NonBlank(a)|), AsScholar, b);
    OutcomesAppend(provider, keys, c0, AsScholar, a, b);
    GatherPrefixFails(left, right);
  }
}
