/**
 * Embedding generation: the batching and slot reassembly of the OpenAI and
 * Ollama providers, the local model provider, the configuration-keyed
 * provider cache, and the public `generate_embeddings` and
 * `generate_single_embedding`. The remote backend is the parameter `reply`:
 * `reply(b)` is what the embeddings endpoint answered to batch number `b`
 * (or the exception its client raised); for the local model, `reply(0)` is
 * what `encode` produced.
 */
module Embeddings {
  import opened Text

  const MaxBatchSize: nat := 2048

  /** The placeholder sent in place of a whitespace-only text. */
  const Placeholder: string := "empty"

  type Vector = seq<real>

  /** One element of the endpoint's `response.data`: its batch-local index and vector. */
  datatype Item = Item(index: int, embedding: Vector)

  /** What the client's exceptions are, as far as the handlers tell them apart. */
  datatype Failure = ConnectionFailure | RateLimitFailure | ApiFailure | OtherFailure

  /** The endpoint's answer to one batch, or the exception its client raised. */
  datatype Reply = Items(items: seq<Item>) | Raised(failure: Failure)

  datatype Kind = OpenAI | Ollama | HuggingFace

  /** Why an `EmbeddingError` was raised. */
  datatype Reason =
    | MissingApiKey      // OPENAI_API_KEY empty when the OpenAI provider is built
    | UnknownProvider    // EMBEDDING_PROVIDER names no registered provider
    | ModelUnavailable   // the local model package or model could not be loaded
    | CannotConnect
    | RateLimited
    | ApiFailed
    | LocalEncodeFailed
    | GenerationFailed   // any other exception, wrapped by `generate_embeddings`
    | NoVector           // `generate_single_embedding` got no first vector

  /** What leaves a call: an `EmbeddingError`, a client exception that `embed`
      does not translate, or the `IndexError` of a slot assignment out of range. */
  datatype EmbedError = EmbeddingError(reason: Reason) | Uncaught(failure: Failure) | SlotOutOfRange

  /** The settings the providers read. */
  datatype Settings = Settings(providerName: Option<string>, openaiApiKey: string, localModelLoads: bool)

  /** `t if t.strip() else "empty"`. */
  function CleanText(t: string): string {
    if Strip(t) != [] then t else Placeholder
  }

  /** The cleaned batch that is sent to the endpoint. */
  function Clean(batch: seq<string>): (r: seq<string>)
    ensures |r| == |batch|
  {
    seq(|batch|, k requires 0 <= k < |batch| => CleanText(batch[k]))
  }

  /** Whitespace-only texts are sent as "empty"; every other text is sent unchanged. */
  lemma CleanSpec(batch: seq<string>)
    ensures forall k :: 0 <= k < |batch| ==> (IsBlank(batch[k]) ==> Clean(batch)[k] == Placeholder)
    ensures forall k :: 0 <= k < |batch| ==> (!IsBlank(batch[k]) ==> Clean(batch)[k] == batch[k])
  {
    forall k | 0 <= k < |batch| ensures IsBlank(batch[k]) <==> Strip(batch[k]) == [] {
      StripSpec(batch[k]);
    }
  }

  /** Where the batch starting at `start` ends: `texts[start:start + 2048]`. */
  function BatchEnd(start: nat, n: nat): (e: nat)
    requires start <= n
    ensures start <= e <= n && e - start <= MaxBatchSize
    ensures e < n ==> e == start + MaxBatchSize
  {
    if start + MaxBatchSize <= n then start + MaxBatchSize else n
  }

  /** The batches `range(0, len(texts), 2048)` visits from `start` on. */
  function Batches(texts: seq<string>, start: nat): (r: seq<seq<string>>)
    decreases |texts| - start
  {
    if start >= |texts| then []
    else [texts[start..BatchEnd(start, |texts|)]] + Batches(texts, start + MaxBatchSize)
  }

  /** The cleaned batches the loop sends from `start` on. */
  function Requests(texts: seq<string>, start: nat): (r: seq<seq<string>>)
    ensures |r| == |Batches(texts, start)|
    ensures forall b :: 0 <= b < |r| ==> r[b] == Clean(Batches(texts, start)[b])
    decreases |texts| - start
  {
    if start >= |texts| then []
    else [Clean(texts[start..BatchEnd(start, |texts|)])] + Requests(texts, start + MaxBatchSize)
  }

  /** The batches glued back together. */
  function Concat(bs: seq<seq<string>>): seq<string> {
    if bs == [] then [] else bs[0] + Concat(bs[1..])
  }

  /** The batches are consecutive slices of at most 2048 texts, none empty, that
      cover the input in order. */
  lemma {:induction false} BatchesSpec(texts: seq<string>, start: nat)
    requires start <= |texts|
    ensures Concat(Batches(texts, start)) == texts[start..]
    ensures forall b :: 0 <= b < |Batches(texts, start)| ==> 0 < |Batches(texts, start)[b]| <= MaxBatchSize
    decreases |texts| - start
  {
    if start < |texts| {
      var e := BatchEnd(start, |texts|);
      var bs := Batches(texts, start);
      if e < |texts| {
        BatchesSpec(texts, e);
      }
      assert bs[1..] == Batches(texts, start + MaxBatchSize);
      assert texts[start..] == texts[start..e] + texts[e..];
    }
  }

  /** The slot `slots[k] = v` writes in a list of length `n`: a negative `k` counts
      from the end, and one out of range raises `IndexError`. */
  function PySlot(k: int, n: nat): (r: Option<nat>)
    ensures r.Some? <==> -(n as int) <= k < n
    ensures r.Some? ==> r.value < n && (if k >= 0 then r.value == k else r.value == k + n)
  {
    if 0 <= k < n then Some(k) else if -(n as int) <= k < 0 then Some(k + n) else None
  }

  /** The slots after `all_embeddings[start + item.index] = item.embedding` for the
      items from `j` on, or the `IndexError` of the first assignment out of range. */
  function PlaceFrom(slots: seq<Option<Vector>>, start: int, items: seq<Item>, j: nat): (r: Result<seq<Option<Vector>>, EmbedError>)
    requires j <= |items|
    ensures r.Ok? ==> |r.value| == |slots|
    ensures r.Err? ==> r.error == SlotOutOfRange
    decreases |items| - j
  {
    if j == |items| then Ok(slots)
    else match PySlot(start + items[j].index, |slots|)
      case None => Err(SlotOutOfRange)
      case Some(k) => PlaceFrom(slots[k := Some(items[j].embedding)], start, items, j + 1)
  }

  /** The last item from `j` on that is written to slot `k`, if any. */
  function LastWrite(start: int, items: seq<Item>, n: nat, k: nat, j: nat): (r: Option<nat>)
    requires j <= |items|
    ensures r.Some? ==> j <= r.value < |items| && PySlot(start + items[r.value].index, n) == Some(k)
    ensures r.Some? ==> forall m :: r.value < m < |items| ==> PySlot(start + items[m].index, n) != Some(k)
    ensures r.None? ==> forall m :: j <= m < |items| ==> PySlot(start + items[m].index, n) != Some(k)
    decreases |items| - j
  {
    if j == |items| then None
    else
      var later := LastWrite(start, items, n, k, j + 1);
      if later.Some? then later
      else if PySlot(start + items[j].index, n) == Some(k) then Some(j)
      else None
  }

  /** Slot reassembly for one batch: it fails exactly when some item's slot is out
      of range; otherwise each slot holds the vector of the last item written to
      it, and a slot no item is written to keeps what it held. */
  lemma {:induction false} PlaceSpec(slots: seq<Option<Vector>>, start: int, items: seq<Item>, j: nat)
    requires j <= |items|
    ensures PlaceFrom(slots, start, items, j).Err? <==>
      exists m :: j <= m < |items| && PySlot(start + items[m].index, |slots|).None?
    ensures var r := PlaceFrom(slots, start, items, j);
      r.Ok? ==> forall k :: 0 <= k < |slots| ==>
        r.value[k] == match LastWrite(start, items, |slots|, k, j)
                        case None => slots[k]
                        case Some(m) => Some(items[m].embedding)
    decreases |items| - j
  {
    if j < |items| {
      var target := PySlot(start + items[j].index, |slots|);
      if target.Some? {
        var next := slots[target.value := Some(items[j].embedding)];
        PlaceSpec(next, start, items, j + 1);
        var r := PlaceFrom(slots, start, items, j);
        if r.Ok? {
          forall k | 0 <= k < |slots|
            ensures r.value[k] == match LastWrite(start, items, |slots|, k, j)
                                    case None => slots[k]
                                    case Some(m) => Some(items[m].embedding)
          {
            var later := LastWrite(start, items, |slots|, k, j + 1);
            if later.None? && k == target.value {
              assert LastWrite(start, items, |slots|, k, j) == Some(j);
            }
          }
        }
      }
    }
  }

  /** How `embed` translates a client exception. Both remote providers turn
      connection and API errors into `EmbeddingError`; only the OpenAI provider
      tells a rate limit apart (for Ollama it is caught as an API error, its
      superclass); anything else leaves `embed` untranslated. */
  function Normalise(kind: Kind, f: Failure): (e: EmbedError)
    ensures e.EmbeddingError? <==> f != OtherFailure
    ensures f == ConnectionFailure ==> e == EmbeddingError(CannotConnect)
    ensures f == RateLimitFailure ==> e == EmbeddingError(if kind == OpenAI then RateLimited else ApiFailed)
    ensures f == ApiFailure ==> e == EmbeddingError(ApiFailed)
  {
    match f
      case ConnectionFailure => EmbeddingError(CannotConnect)
      case RateLimitFailure => if kind == OpenAI then EmbeddingError(RateLimited) else EmbeddingError(ApiFailed)
      case ApiFailure => EmbeddingError(ApiFailed)
      case OtherFailure => Uncaught(OtherFailure)
  }

  /** The remote `embed` loop from batch number `b` starting at `start`, with the
      slots filled so far. */
  function EmbedFrom(kind: Kind, texts: seq<string>, reply: nat -> Reply, b: nat, start: nat, slots: seq<Option<Vector>>)
    : (r: Result<seq<Option<Vector>>, EmbedError>)
    ensures r.Ok? ==> |r.value| == |slots|
    decreases |texts| - start
  {
    if start >= |texts| then Ok(slots)
    else match reply(b)
      case Raised(f) => Err(Normalise(kind, f))
      case Items(items) =>
        match PlaceFrom(slots, start, items, 0)
          case Err(e) => Err(e)
          case Ok(placed) => EmbedFrom(kind, texts, reply, b + 1, start + MaxBatchSize, placed)
  }

  /** Some item of some batch from `b` on is written to slot `k`. */
  predicate WrittenFrom(texts: seq<string>, reply: nat -> Reply, b: nat, start: nat, n: nat, k: nat)
    decreases |texts| - start
  {
    start < |texts|
    && ((reply(b).Items? && LastWrite(start, reply(b).items, n, k, 0).Some?)
        || WrittenFrom(texts, reply, b + 1, start + MaxBatchSize, n, k))
  }

  /** A slot that no batch writes keeps what it held: the preallocated `None`. */
  lemma {:induction false} EmbedUntouched(kind: Kind, texts: seq<string>, reply: nat -> Reply, b: nat, start: nat,
                                          slots: seq<Option<Vector>>, k: nat)
    requires k < |slots|
    requires EmbedFrom(kind, texts, reply, b, start, slots).Ok?
    requires !WrittenFrom(texts, reply, b, start, |slots|, k)
    ensures EmbedFrom(kind, texts, reply, b, start, slots).value[k] == slots[k]
    decreases |texts| - start
  {
    if start < |texts| {
      var items := reply(b).items;
      PlaceSpec(slots, start, items, 0);
      var placed := PlaceFrom(slots, start, items, 0).value;
      EmbedUntouched(kind, texts, reply, b + 1, start + MaxBatchSize, placed, k);
    }
  }

  /** The preallocated `[None] * n`. */
  function NoneSlots(n: nat): (r: seq<Option<Vector>>)
    ensures |r| == n && forall k :: 0 <= k < n ==> r[k].None?
  {
    seq(n, _ => None)
  }

  /** What `embed` returns or raises. The local model encodes all texts at once
      and any failure of it is an `EmbeddingError`; the remote providers batch. */
  function EmbedResult(kind: Kind, texts: seq<string>, reply: nat -> Reply): Result<seq<Option<Vector>>, EmbedError> {
    if kind == HuggingFace then
      match reply(0)
        case Raised(_) => Err(EmbeddingError(LocalEncodeFailed))
        case Items(items) => Ok(seq(|items|, m requires 0 <= m < |items| => Some(items[m].embedding)))
    else EmbedFrom(kind, texts, reply, 0, 0, NoneSlots(|texts|))
  }

  /** A remote `embed` that succeeds returns exactly one slot per text, and a slot
      that no batch writes stays `None`. */
  lemma EmbedSlots(kind: Kind, texts: seq<string>, reply: nat -> Reply)
    requires kind != HuggingFace
    ensures var r := EmbedResult(kind, texts, reply);
      r.Ok? ==> (|r.value| == |texts|
                 && forall k :: 0 <= k < |texts| && !WrittenFrom(texts, reply, 0, 0, |texts|, k) ==> r.value[k].None?)
  {
    var r := EmbedResult(kind, texts, reply);
    if r.Ok? {
      forall k | 0 <= k < |texts| && !WrittenFrom(texts, reply, 0, 0, |texts|, k) ensures r.value[k].None? {
        EmbedUntouched(kind, texts, reply, 0, 0, NoneSlots(|texts|), k);
      }
    }
  }

  /** `PROVIDERS[name]()`: the provider a name selects, or why building it raised. */
  function Construct(name: string, settings: Settings): (r: Result<Kind, EmbedError>)
    ensures r.Err? ==> r.error.EmbeddingError?
    ensures r.Ok? <==> (name == "openai" && settings.openaiApiKey != []) || name == "ollama"
                       || (name == "huggingface" && settings.localModelLoads)
  {
    if name == "openai" then
      if settings.openaiApiKey == [] then Err(EmbeddingError(MissingApiKey)) else Ok(OpenAI)
    else if name == "ollama" then Ok(Ollama)
    else if name == "huggingface" then
      if settings.localModelLoads then Ok(HuggingFace) else Err(EmbeddingError(ModelUnavailable))
    else Err(EmbeddingError(UnknownProvider))
  }

  /** `getattr(settings, "EMBEDDING_PROVIDER", "ollama")`. */
  function ConfiguredName(settings: Settings): string {
    match settings.providerName
      case None => "ollama"
      case Some(name) => name
  }

  /** The provider `get_embedding_provider` hands out for a cache holding `cached`
      under `key`: the cached one when the key is the configured name, otherwise a
      new one. */
  function Selected(cached: Option<Kind>, key: Option<string>, settings: Settings): Result<Kind, EmbedError> {
    var name := ConfiguredName(settings);
    if cached.Some? && key == Some(name) then Ok(cached.value) else Construct(name, settings)
  }

  /** `generate_embeddings` after a provider was selected: an `EmbeddingError` of
      `embed` passes through, any other exception is wrapped as one, and a dimension
      mismatch is only logged, so the list comes back unchanged. */
  function Generated(selected: Result<Kind, EmbedError>, texts: seq<string>, reply: nat -> Reply)
    : (r: Result<seq<Option<Vector>>, EmbedError>)
    ensures selected.Err? ==> r == Err(selected.error)
    ensures selected.Ok? && r.Err? ==> r.error.EmbeddingError?
    ensures selected.Ok? && EmbedResult(selected.value, texts, reply).Ok? ==> r == EmbedResult(selected.value, texts, reply)
  {
    match selected
      case Err(e) => Err(e)
      case Ok(kind) =>
        match EmbedResult(kind, texts, reply)
          case Ok(vs) => Ok(vs)
          case Err(e) => if e.EmbeddingError? then Err(e) else Err(EmbeddingError(GenerationFailed))
  }

  /** `generate_single_embedding` after `generate_embeddings([text])`. */
  function Single(results: Result<seq<Option<Vector>>, EmbedError>): (r: Result<Vector, EmbedError>)
    ensures r.Ok? <==> results.Ok? && results.value != [] && results.value[0].Some?
    ensures r.Ok? ==> r.value == results.value[0].value
    ensures results.Ok? && (results.value == [] || results.value[0].None?) ==> r == Err(EmbeddingError(NoVector))
  {
    match results
      case Err(e) => Err(e)
      case Ok(vs) => if vs == [] || vs[0].None? then Err(EmbeddingError(NoVector)) else Ok(vs[0].value)
  }

  /** An embedding provider instance. */
  class EmbeddingProvider {
    const kind: Kind

    constructor (kind: Kind)
      ensures this.kind == kind
    {
      this.kind := kind;
    }

    /** `embed(texts)`: the local model encodes everything at once; the remote
        providers send batches of at most 2048 cleaned texts and put each returned
        vector into the slot `batch_start + item.index` of a list preallocated with
        `None`. `sent` is the list of cleaned batches sent, in order. */
    method Embed(texts: seq<string>, reply: nat -> Reply) returns (r: Result<seq<Option<Vector>>, EmbedError>, sent: seq<seq<string>>)
      ensures r == EmbedResult(kind, texts, reply)
      ensures kind != HuggingFace ==> |sent| <= |Requests(texts, 0)| && sent == Requests(texts, 0)[..|sent|]
      ensures kind != HuggingFace && r.Ok? ==> sent == Requests(texts, 0)
    {
      sent := [];
      if kind == HuggingFace {
        match reply(0) {
          case Raised(_) =>
            return Err(EmbeddingError(LocalEncodeFailed)), sent;
          case Items(items) =>
            var vectors: seq<Option<Vector>> := [];
            for m := 0 to |items|
              invariant |vectors| == m && forall p :: 0 <= p < m ==> vectors[p] == Some(items[p].embedding)
            {
              vectors := vectors + [Some(items[m].embedding)];
            }
            assert vectors == seq(|items|, m requires 0 <= m < |items| => Some(items[m].embedding));
            return Ok(vectors), sent;
        }
      }
      var slots := NoneSlots(|texts|);
      var start: nat := 0;
      var b: nat := 0;
      while start < |texts|
        invariant |slots| == |texts|
        invariant EmbedFrom(kind, texts, reply, b, start, slots) == EmbedFrom(kind, texts, reply, 0, 0, NoneSlots(|texts|))
        invariant sent + Requests(texts, start) == Requests(texts, 0)
        decreases |texts| - start
      {
        var batch := texts[start..BatchEnd(start, |texts|)];
        var cleaned := Clean(batch);
        sent := sent + [cleaned];
        assert sent + Requests(texts, start + MaxBatchSize) == Requests(texts, 0);
        match reply(b) {
          case Raised(f) =>
            return Err(Normalise(kind, f)), sent;
          case Items(items) =>
            var placed := Place(slots, start, items);
            if placed.Err? {
              return placed, sent;
            }
            slots := placed.value;
        }
        start := start + MaxBatchSize;
        b := b + 1;
      }
      r := Ok(slots);
    }
  }

  /** The inner loop of `embed` over `response.data`. */
  method Place(slots: seq<Option<Vector>>, start: int, items: seq<Item>) returns (r: Result<seq<Option<Vector>>, EmbedError>)
    ensures r == PlaceFrom(slots, start, items, 0)
  {
    var current := slots;
    for j := 0 to |items|
      invariant |current| == |slots|
      invariant PlaceFrom(current, start, items, j) == PlaceFrom(slots, start, items, 0)
    {
      var target := PySlot(start + items[j].index, |current|);
      if target.None? {
        return Err(SlotOutOfRange);
      }
      current := current[target.value := Some(items[j].embedding)];
    }
    r := Ok(current);
  }

  /** The module globals `_provider_cache` and `_provider_cache_key`. */
  class ProviderCache {
    var instance: EmbeddingProvider?
    var key: Option<string>

    constructor ()
      ensures instance == null && key == None
    {
      instance := null;
      key := None;
    }

    /** The cached provider's kind, if there is one. */
    function CachedKind(): Option<Kind>
      reads this, instance
    {
      if instance != null then Some(instance.kind) else None
    }

    /** `get_embedding_provider()`: the cached instance when its key is the
        configured name; otherwise a new instance, which is cached under the name.
        When building it raises, the cache is left as it was. */
    method Get(settings: Settings) returns (r: Result<EmbeddingProvider, EmbedError>)
      modifies this
      ensures var name := ConfiguredName(settings);
        if old(instance) != null && old(key) == Some(name) then
          r == Ok(old(instance)) && instance == old(instance) && key == old(key)
        else match Construct(name, settings)
          case Err(e) => r == Err(e) && instance == old(instance) && key == old(key)
          case Ok(kind) => r.Ok? && fresh(r.value) && r.value.kind == kind && instance == r.value && key == Some(name)
      ensures r.Ok? ==> Selected(old(CachedKind()), old(key), settings) == Ok(r.value.kind)
      ensures r.Err? ==> Selected(old(CachedKind()), old(key), settings) == Err(r.error)
    {
      var name := ConfiguredName(settings);
      if instance != null && key == Some(name) {
        return Ok(instance);
      }
      match Construct(name, settings) {
        case Err(e) =>
          return Err(e);
        case Ok(kind) =>
          var p := new EmbeddingProvider(kind);
          instance := p;
          key := Some(name);
          r := Ok(p);
      }
    }

    /** `reset_provider_cache()`. */
    method Reset()
      modifies this
      ensures instance == null && key == None
    {
      instance := null;
      key := None;
    }
  }

  /** `generate_embeddings(texts)`: no texts give no vectors without touching the
      cache; otherwise the selected provider embeds them, and the cache then
      holds that provider under the configured name (or is left as it was
      when building the provider raised). */
  method GenerateEmbeddings(texts: seq<string>, cache: ProviderCache, settings: Settings, reply: nat -> Reply)
    returns (r: Result<seq<Option<Vector>>, EmbedError>)
    modifies cache
    ensures texts == [] ==> r == Ok([]) && unchanged(cache)
    ensures texts != [] ==> r == Generated(Selected(old(cache.CachedKind()), old(cache.key), settings), texts, reply)
    ensures texts != [] ==>
      var sel := Selected(old(cache.CachedKind()), old(cache.key), settings);
      (sel.Ok? ==> cache.key == Some(ConfiguredName(settings)) && cache.CachedKind() == Some(sel.value))
      && (sel.Err? ==> cache.instance == old(cache.instance) && cache.key == old(cache.key))
    ensures texts != [] && old(cache.instance) != null && old(cache.key) == Some(ConfiguredName(settings)) ==>
      cache.instance == old(cache.instance)
  {
    if texts == [] {
      return Ok([]);
    }
    var provider := cache.Get(settings);
    match provider {
      case Err(e) =>
        r := Err(e);
      case Ok(p) =>
        var embedded, _ := p.Embed(texts, reply);
        match embedded {
          case Ok(vs) =>
            r := Ok(vs);
          case Err(e) =>
            r := if e.EmbeddingError? then Err(e) else Err(EmbeddingError(GenerationFailed));
        }
    }
  }

  /** `generate_single_embedding(text)`: the first vector of `generate_embeddings([text])`,
      or an `EmbeddingError` when there is none. */
  method GenerateSingleEmbedding(text: string, cache: ProviderCache, settings: Settings, reply: nat -> Reply)
    returns (r: Result<Vector, EmbedError>)
    modifies cache
    ensures r == Single(Generated(Selected(old(cache.CachedKind()), old(cache.key), settings), [text], reply))
    ensures var sel := Selected(old(cache.CachedKind()), old(cache.key), settings);
      (sel.Ok? ==> cache.key == Some(ConfiguredName(settings)) && cache.CachedKind() == Some(sel.value))
      && (sel.Err? ==> cache.instance == old(cache.instance) && cache.key == old(cache.key))
    ensures old(cache.instance) != null && old(cache.key) == Some(ConfiguredName(settings)) ==>
      cache.instance == old(cache.instance)
  {
    var results := GenerateEmbeddings([text], cache, settings, reply);
    match results {
      case Err(e) =>
        r := Err(e);
      case Ok(vs) =>
        if vs == [] || vs[0].None? {
          r := Err(EmbeddingError(NoVector));
        } else {
          r := Ok(vs[0].value);
        }
    }
  }
}
