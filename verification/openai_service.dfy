/**
 * The rewrite service: a round-robin rotation over a copied list of API keys,
 * one chat-completion request per non-blank text, and the in-order batch map
 * (`asyncio.gather`) over a list of texts.
 *
 * The completion call itself is the parameter `provider`: a function from the
 * request to the rewritten text or the message of the exception the client
 * raised.
 */
module OpenAI {
  import opened Wrappers
  import opened Text

  /** One chat-completion request: the key the client is built with, the
      system message and the user prompt. */
  datatype Request = Request(apiKey: string, system: string, prompt: string)

  /** The external completion call; `Err` carries the exception's message. */
  type Provider = Request -> Result<string, string>

  const SystemMessage := "You are a writing assistant."

  /** Which user prompt a call sends: `rewrite_text` always asks for a scholar,
      `rewrite_text_chunk` names the style it was given. */
  datatype Instruction = AsScholar | InStyle(style: string)

  function Prompt(ins: Instruction, text: string): string {
    match ins
    case AsScholar => "Rewrite as a scholar:\n\n" + text
    case InStyle(style) => "Rewrite in " + style + " style:\n\n" + text
  }

  /** The prompt ends with the text itself, after a blank line. */
  lemma PromptEndsWithText(ins: Instruction, text: string)
    ensures var p := Prompt(ins, text);
      |p| >= |text| + 2 && p[|p| - |text|..] == text && p[|p| - |text| - 2..|p| - |text|] == "\n\n"
  {
    var p := Prompt(ins, text);
    match ins
    case AsScholar =>
      assert p == ("Rewrite as a scholar:" + "\n\n") + text;
    case InStyle(style) =>
      assert p == ("Rewrite in " + style + " style:" + "\n\n") + text;
  }

  /** One completion request made with `key`. */
  function Call(provider: Provider, key: string, ins: Instruction, text: string): Result<string, string> {
    provider(Request(key, SystemMessage, Prompt(ins, text)))
  }

  /** A rewrite that returns blank text unchanged and otherwise makes the call. */
  function Guarded(provider: Provider, key: string, ins: Instruction, text: string): Result<string, string> {
    if IsBlank(text) then Ok(text) else Call(provider, key, ins, text)
  }

  // ---------------------------------------------------------------------------
  // Key rotation

  /** Where the cursor stands after `k` calls from `c`, each call moving it as
      `_get_next_api_key` does: one step, modulo the pool size. */
  function Advance(c: nat, n: nat, k: nat): (r: nat)
    requires c < n
    ensures r < n
  {
    if k == 0 then c else (Advance(c, n, k - 1) + 1) % n
  }

  /** Advancing `a` steps and then `b` steps is advancing `a + b` steps. */
  lemma {:induction false} AdvanceAdd(c: nat, n: nat, a: nat, b: nat)
    requires c < n
    ensures Advance(Advance(c, n, a), n, b) == Advance(c, n, a + b)
  {
    if b > 0 {
      var x, m := Advance(c, n, a), a + b - 1;
      AdvanceAdd(c, n, a, b - 1);
      var y := Advance(x, n, b - 1);
      assert y == Advance(c, n, m);
      assert Advance(x, n, b) == (y + 1) % n;
      assert Advance(c, n, m + 1) == (Advance(c, n, m) + 1) % n;
    }
  }

  /** From a cursor inside the list, at most one full rotation of steps moves it
      forward, wrapping past the end exactly once if it reaches it. */
  lemma {:induction false} AdvanceWithin(c: nat, n: nat, k: nat)
    requires c < n && k <= n
    ensures Advance(c, n, k) == if c + k < n then c + k else c + k - n
  {
    if k > 0 {
      AdvanceWithin(c, n, k - 1);
      var p := Advance(c, n, k - 1);
      if c + k < n {
        ModBelow(p + 1, n);
      } else if c + k == n {
        ModSelf(n);
      } else {
        ModBelow(p + 1, n);
      }
    }
  }

  lemma ModBelow(x: nat, n: nat)
    requires x < n
    ensures x % n == x
  {
  }

  lemma ModSelf(n: nat)
    requires n > 0
    ensures n % n == 0
  {
  }

  /** The first `k` keys a rotation over `keys` hands out when it starts at
      index 0. */
  function RoundRobin(keys: seq<string>, k: nat): (r: seq<string>)
    requires |keys| > 0
    ensures |r| == k
  {
    if k == 0 then [] else RoundRobin(keys, k - 1) + [keys[Advance(0, |keys|, k - 1)]]
  }

  /** The `j`-th key handed out is the key under the cursor after `j` calls. */
  lemma {:induction false} RoundRobinAt(keys: seq<string>, k: nat, j: nat)
    requires |keys| > 0 && j < k
    ensures RoundRobin(keys, k)[j] == keys[Advance(0, |keys|, j)]
  {
    if j < k - 1 {
      RoundRobinAt(keys, k - 1, j);
    }
  }

  /** A full rotation from the start hands out every key once, in list order,
      and the call after it hands out the first key again. */
  lemma FullRotation(keys: seq<string>)
    requires |keys| > 0
    ensures RoundRobin(keys, |keys|) == keys
    ensures RoundRobin(keys, |keys| + 1) == keys + [keys[0]]
  {
    forall j | 0 <= j < |keys|
      ensures RoundRobin(keys, |keys|)[j] == keys[j]
    {
      FirstRotationAt(keys, j);
    }
    AdvanceWithin(0, |keys|, |keys|);
  }

  /** Call `j` of the first rotation hands out key `j`. */
  lemma FirstRotationAt(keys: seq<string>, j: nat)
    requires j < |keys|
    ensures RoundRobin(keys, |keys|)[j] == keys[j]
  {
    AdvanceWithin(0, |keys|, j);
    assert Advance(0, |keys|, j) == j;
    RoundRobinAt(keys, |keys|, j);
  }

  /** Call `k + j` of a rotation from the start, for `j` below the pool size,
      hands out the key `j` places after the cursor's position after `k` calls,
      wrapping at the end of the list. */
  lemma RotationAt(keys: seq<string>, k: nat, j: nat)
    requires j < |keys|
    ensures var c := Advance(0, |keys|, k);
      RoundRobin(keys, k + |keys|)[k + j] == (keys[c..] + keys[..c])[j]
  {
    var n := |keys|;
    var c := Advance(0, n, k);
    RoundRobinAt(keys, k + n, k + j);
    AdvanceAdd(0, n, k, j);
    AdvanceWithin(c, n, j);
  }

  /** Item `j` of a window of `|keys|` consecutive calls, seen as a slice. */
  lemma WindowAt(keys: seq<string>, k: nat, j: nat)
    requires j < |keys|
    ensures var c := Advance(0, |keys|, k);
      RoundRobin(keys, k + |keys|)[k..][j] == (keys[c..] + keys[..c])[j]
  {
    RotationAt(keys, k, j);
  }

  /** Fairness: any `|keys|` consecutive calls hand out every key exactly once,
      as the rotation of the list that starts where the cursor stood. */
  lemma WindowIsRotation(keys: seq<string>, k: nat)
    requires |keys| > 0
    ensures var c := Advance(0, |keys|, k);
      RoundRobin(keys, k + |keys|)[k..] == keys[c..] + keys[..c]
  {
    var c := Advance(0, |keys|, k);
    var w := RoundRobin(keys, k + |keys|)[k..];
    var rot := keys[c..] + keys[..c];
    assert |w| == |keys| == |rot|;
    forall j | 0 <= j < |keys|
      ensures w[j] == rot[j]
    {
      WindowAt(keys, k, j);
    }
  }

  // ---------------------------------------------------------------------------
  // Batches of texts

  /** What an in-order map of the blank-guarded rewrite over `texts` yields when
      the rotation stands at `cursor`: item `i` uses the key that comes after
      one key for every non-blank text before it. */
  function Outcomes(provider: Provider, keys: seq<string>, cursor: nat, ins: Instruction, texts: seq<string>)
    : seq<Result<string, string>>
    requires cursor < |keys|
  {
    seq(|texts|, i requires 0 <= i < |texts| =>
      Guarded(provider, keys[Advance(cursor, |keys|, |NonBlank(texts[..i])|)], ins, texts[i]))
  }

  /** Item `i` of the map. */
  lemma OutcomesAt(provider: Provider, keys: seq<string>, cursor: nat, ins: Instruction, texts: seq<string>, i: nat)
    requires cursor < |keys| && i < |texts|
    ensures Outcomes(provider, keys, cursor, ins, texts)[i]
         == Guarded(provider, keys[Advance(cursor, |keys|, |NonBlank(texts[..i])|)], ins, texts[i])
  {
  }

  /** The keys a batch uses continue the round-robin history: when `m` keys
      have been handed out before the batch, item `i` (if not blank) is sent
      with the key that is call number `m + |NonBlank(texts[..i])|` of the
      rotation from the first key. */
  lemma OutcomesKeys(provider: Provider, keys: seq<string>, m: nat, ins: Instruction, texts: seq<string>, i: nat)
    requires |keys| > 0 && i < |texts|
    ensures var k := m + |NonBlank(texts[..i])|;
      Outcomes(provider, keys, Advance(0, |keys|, m), ins, texts)[i]
        == Guarded(provider, RoundRobin(keys, k + 1)[k], ins, texts[i])
  {
    var k := m + |NonBlank(texts[..i])|;
    OutcomesAt(provider, keys, Advance(0, |keys|, m), ins, texts, i);
    AdvanceAdd(0, |keys|, m, |NonBlank(texts[..i])|);
    RoundRobinAt(keys, k + 1, k);
  }

  /** The key an item of the second part of a concatenation uses is the one it
      would use if the second part were mapped from where the first part left
      the rotation. */
  lemma KeyAfterPrefix(keys: seq<string>, cursor: nat, a: seq<string>, b: seq<string>, m: nat)
    requires cursor < |keys| && m <= |b|
    ensures Advance(cursor, |keys|, |NonBlank((a + b)[..|a| + m])|)
         == Advance(Advance(cursor, |keys|, |NonBlank(a)|), |keys|, |NonBlank(b[..m])|)
  {
    assert (a + b)[..|a| + m] == a + b[..m];
    NonBlankAppend(a, b[..m]);
    AdvanceAdd(cursor, |keys|, |NonBlank(a)|, |NonBlank(b[..m])|);
  }

  /** Item `i` of the map over a concatenation, seen from either part. */
  lemma OutcomesAppendAt(provider: Provider, keys: seq<string>, cursor: nat, ins: Instruction,
                         a: seq<string>, b: seq<string>, i: nat)
    requires cursor < |keys| && i < |a| + |b|
    ensures Outcomes(provider, keys, cursor, ins, a + b)[i]
         == (Outcomes(provider, keys, cursor, ins, a)
           + Outcomes(provider, keys, Advance(cursor, |keys|, |NonBlank(a)|), ins, b))[i]
  {
    var left := Outcomes(provider, keys, cursor, ins, a);
    var right := Outcomes(provider, keys, Advance(cursor, |keys|, |NonBlank(a)|), ins, b);
    OutcomesAt(provider, keys, cursor, ins, a + b, i);
    if i < |a| {
      assert (a + b)[..i] == a[..i];
      OutcomesAt(provider, keys, cursor, ins, a, i);
      assert (left + right)[i] == left[i];
    } else {
      var m := i - |a|;
      KeyAfterPrefix(keys, cursor, a, b, m);
      OutcomesAt(provider, keys, Advance(cursor, |keys|, |NonBlank(a)|), ins, b, m);
      assert (left + right)[i] == right[m];
    }
  }

  /** Mapping over a concatenation maps the first part, then the second part
      from where the rotation stands after the first. */
  lemma OutcomesAppend(provider: Provider, keys: seq<string>, cursor: nat, ins: Instruction,
                       a: seq<string>, b: seq<string>)
    requires cursor < |keys|
    ensures Outcomes(provider, keys, cursor, ins, a + b)
         == Outcomes(provider, keys, cursor, ins, a)
          + Outcomes(provider, keys, Advance(cursor, |keys|, |NonBlank(a)|), ins, b)
  {
    var lhs := Outcomes(provider, keys, cursor, ins, a + b);
    var rhs := Outcomes(provider, keys, cursor, ins, a)
             + Outcomes(provider, keys, Advance(cursor, |keys|, |NonBlank(a)|), ins, b);
    forall i | 0 <= i < |lhs|
      ensures lhs[i] == rhs[i]
    {
      OutcomesAppendAt(provider, keys, cursor, ins, a, b, i);
    }
  }

  /** One more item of an in-order map: its outcome is appended, and the count
      of keys taken grows by one exactly when the item is not blank. */
  lemma MapStep(provider: Provider, keys: seq<string>, c0: nat, ins: Instruction, texts: seq<string>, i: nat,
                outs: seq<Result<string, string>>, o: Result<string, string>)
    requires c0 < |keys| && i < |texts|
    requires outs == Outcomes(provider, keys, c0, ins, texts[..i])
    requires o == Guarded(provider, keys[Advance(c0, |keys|, |NonBlank(texts[..i])|)], ins, texts[i])
    ensures outs + [o] == Outcomes(provider, keys, c0, ins, texts[..i + 1])
    ensures |NonBlank(texts[..i + 1])| == |NonBlank(texts[..i])| + (if IsBlank(texts[i]) then 0 else 1)
  {
    var c := Advance(c0, |keys|, |NonBlank(texts[..i])|);
    assert texts[..i + 1] == texts[..i] + [texts[i]];
    OutcomesAppend(provider, keys, c0, ins, texts[..i], [texts[i]]);
    NonBlankAppend(texts[..i], [texts[i]]);
    assert NonBlank([texts[i]]) == if IsBlank(texts[i]) then [] else [texts[i]];
    assert [texts[i]][..0] == [];
    OutcomesAt(provider, keys, c, ins, [texts[i]], 0);
  }

  /** `asyncio.gather` over calls that may raise: the list of values when every
      call succeeded, otherwise the error of the first call that failed. */
  function Gather<T>(outs: seq<Result<T, string>>): (r: Result<seq<T>, string>)
    ensures r.Ok? <==> forall i | 0 <= i < |outs| :: outs[i].Ok?
    ensures r.Ok? ==> |r.value| == |outs| && forall i | 0 <= i < |outs| :: outs[i] == Ok(r.value[i])
    ensures r.Err? ==> exists i | 0 <= i < |outs| :: outs[i] == Err(r.error) && forall j | 0 <= j < i :: outs[j].Ok?
  {
    if outs == [] then Ok([])
    else match outs[0]
      case Err(e) => Err(e)
      case Ok(v) =>
        match Gather(outs[1..])
        case Err(e) =>
          assert forall j | 0 <= j < |outs| - 1 :: outs[1..][j] == outs[j + 1];
          Err(e)
        case Ok(vs) => Ok([v] + vs)
  }

  /** Gathering a concatenation: the first part's error wins, then the second
      part's; on success the values are concatenated in order. */
  lemma {:induction false} GatherAppend<T>(a: seq<Result<T, string>>, b: seq<Result<T, string>>)
    ensures Gather(a + b) ==
      match Gather(a)
      case Err(e) => Err(e)
      case Ok(va) =>
        match Gather(b)
        case Err(e) => Err(e)
        case Ok(vb) => Ok(va + vb)
  {
    if a == [] {
      assert a + b == b;
      match Gather(b)
      case Err(e) =>
      case Ok(vb) => assert [] + vb == vb;
    } else {
      assert (a + b)[0] == a[0];
      assert (a + b)[1..] == a[1..] + b;
      GatherAppend(a[1..], b);
      match a[0]
      case Err(e) =>
      case Ok(v) =>
        match Gather(a[1..])
        case Err(e) =>
        case Ok(va) =>
          match Gather(b)
          case Err(e) =>
          case Ok(vb) =>
            assert [v] + (va + vb) == ([v] + va) + vb;
    }
  }

  /** A failure in the first part of a list is the failure of the whole list. */
  lemma GatherPrefixFails<T>(a: seq<Result<T, string>>, b: seq<Result<T, string>>)
    requires Gather(a).Err?
    ensures Gather(a + b) == Gather(a)
  {
    GatherAppend(a, b);
  }

  /** A batch of texts as the service returns it: when it succeeds it has one
      item per text, in order; blank texts come back verbatim and every other
      item is the provider's answer for that text; it fails exactly when one of
      the provider calls failed. */
  lemma BatchResult(provider: Provider, keys: seq<string>, cursor: nat, ins: Instruction, texts: seq<string>)
    requires cursor < |keys|
    ensures var r := Gather(Outcomes(provider, keys, cursor, ins, texts));
      && (r.Ok? ==> |r.value| == |texts|)
      && (r.Ok? ==> forall i | 0 <= i < |texts| && IsBlank(texts[i]) :: r.value[i] == texts[i])
      && (r.Ok? ==> forall i | 0 <= i < |texts| && !IsBlank(texts[i]) ::
            Ok(r.value[i]) == Call(provider, keys[Advance(cursor, |keys|, |NonBlank(texts[..i])|)], ins, texts[i]))
      && (r.Err? <==> exists i | 0 <= i < |texts| ::
            !IsBlank(texts[i]) && Call(provider, keys[Advance(cursor, |keys|, |NonBlank(texts[..i])|)], ins, texts[i]).Err?)
  {
    var outs := Outcomes(provider, keys, cursor, ins, texts);
    var r := Gather(outs);
    if r.Err? {
      var i :| 0 <= i < |outs| && outs[i] == Err(r.error) && forall j | 0 <= j < i :: outs[j].Ok?;
      assert !IsBlank(texts[i]);
    }
  }

  // ---------------------------------------------------------------------------
  // The service object

  class OpenAIService {
    /** The copy of the configured key list; nothing changes it after construction. */
    var apiKeys: seq<string>
    /** The index of the key the next call uses. */
    var cursor: nat
    /** Every key handed out so far, in order. */
    ghost var issued: seq<string>

    /** The cursor stays inside the list, and the keys handed out so far are the
        round-robin sequence from the first key. */
    ghost predicate Valid()
      reads this
    {
      && |apiKeys| > 0
      && cursor == Advance(0, |apiKeys|, |issued|)
      && issued == RoundRobin(apiKeys, |issued|)
    }

    /** Copies the configured keys and starts at the first. An empty list is a
        configuration fault the caller must exclude. */
    constructor (keys: seq<string>)
      requires |keys| > 0
      ensures Valid()
      ensures apiKeys == keys && cursor == 0 && issued == []
    {
      apiKeys := keys;
      cursor := 0;
      issued := [];
    }

    /** `_get_next_api_key`: the key under the cursor, then the cursor moves one
        step, wrapping at the end. */
    method NextKey() returns (key: string)
      requires Valid()
      modifies this`cursor, this`issued
      ensures Valid() && apiKeys == old(apiKeys)
      ensures key == apiKeys[old(cursor)]
      ensures cursor == (old(cursor) + 1) % |apiKeys| && cursor < |apiKeys|
      ensures issued == old(issued) + [key]
    {
      key := apiKeys[cursor];
      cursor := (cursor + 1) % |apiKeys|;
      issued := issued + [key];
    }

    /** `rewrite_text`: always takes a key, even for blank text, and asks for a
        scholarly rewrite. */
    method RewriteText(provider: Provider, text: string) returns (r: Result<string, string>)
      requires Valid()
      modifies this`cursor, this`issued
      ensures Valid() && apiKeys == old(apiKeys)
      ensures r == Call(provider, apiKeys[old(cursor)], AsScholar, text)
      ensures cursor == (old(cursor) + 1) % |apiKeys|
      ensures issued == old(issued) + [apiKeys[old(cursor)]]
    {
      var key := NextKey();
      r := provider(Request(key, SystemMessage, Prompt(AsScholar, text)));
    }

    /** `rewrite_text_chunk`: blank text comes back unchanged without taking a
        key; other text takes exactly one key and is sent with the style. */
    method RewriteTextChunk(provider: Provider, text: string, style: string) returns (r: Result<string, string>)
      requires Valid()
      modifies this`cursor, this`issued
      ensures Valid() && apiKeys == old(apiKeys)
      ensures r == Guarded(provider, apiKeys[old(cursor)], InStyle(style), text)
      ensures IsBlank(text) ==> r == Ok(text) && cursor == old(cursor) && issued == old(issued)
      ensures !IsBlank(text) ==>
        cursor == (old(cursor) + 1) % |apiKeys| && issued == old(issued) + [apiKeys[old(cursor)]]
    {
      if IsBlank(text) {
        return Ok(text);
      }
      var key := NextKey();
      r := provider(Request(key, SystemMessage, Prompt(InStyle(style), text)));
    }

    /** `process_text_batch`: the chunk rewrite mapped over the texts in order;
        every non-blank text takes one key, and the batch fails with the first
        failure. */
    method ProcessTextBatch(provider: Provider, texts: seq<string>, style: string)
      returns (r: Result<seq<string>, string>)
      requires Valid()
      modifies this`cursor, this`issued
      ensures Valid() && apiKeys == old(apiKeys)
      ensures r == Gather(Outcomes(provider, apiKeys, old(cursor), InStyle(style), texts))
      ensures cursor == Advance(old(cursor), |apiKeys|, |NonBlank(texts)|)
      ensures |issued| == |old(issued)| + |NonBlank(texts)|
    {
      ghost var c0 := cursor;
      var outs: seq<Result<string, string>> := [];
      var i := 0;
      while i < |texts|
        invariant 0 <= i <= |texts|
        invariant Valid() && apiKeys == old(apiKeys)
        invariant outs == Outcomes(provider, apiKeys, c0, InStyle(style), texts[..i])
        invariant cursor == Advance(c0, |apiKeys|, |NonBlank(texts[..i])|)
        invariant |issued| == |old(issued)| + |NonBlank(texts[..i])|
      {
        var o := RewriteTextChunk(provider, texts[i], style);
        MapStep(provider, apiKeys, c0, InStyle(style), texts, i, outs, o);
        outs := outs + [o];
        i := i + 1;
      }
      assert texts[..i] == texts;
      r := Gather(outs);
    }
  }
}
