/**
 * The vector-index side of the assistant (`PineconeService`): the chunk
 * records written to Pinecone, the text each chunk is embedded from, the
 * batched upload with its per-chunk retry set and recursive re-upload, the
 * bounded retry with doubling delay around every remote call, the
 * similarity-threshold filter of a query, and the two converters of the
 * answer examples stored in the metadata.
 *
 * The embedding service, the index's upsert and the index's query are
 * oracles passed in as functions; an oracle answers per attempt, so a
 * flaky service is any oracle that fails on some attempts.  `time.sleep`
 * is not modelled; the retry loops return the delays they would sleep.
 */
module Pinecone {
  import opened Strings
  import opened CategoryClassifier
  import opened FileUpload

  /** `max_retries` of `get_embedding`, of the upsert loop and of `query`. */
  const MaxRetries: nat := 3
  /** First `retry_delay` of `get_embedding` and `query`, in seconds. */
  const EmbedDelay: nat := 1
  /** First `retry_delay` of the upsert loop, in seconds. */
  const UpsertDelay: nat := 2

  type Vector = seq<real>

  // ---------------------------------------------------------------------
  // Bounded retry with doubling delay
  // ---------------------------------------------------------------------

  /** The delays `d, 2d, 4d, ...` slept between `n + 1` failed attempts. */
  function Doubling(d: nat, n: nat): (r: seq<nat>)
    ensures |r| == n
    ensures n > 0 ==> r[0] == d
    decreases n
  {
    if n == 0 then [] else [d] + Doubling(2 * d, n - 1)
  }

  /** What a retry loop did: whether an attempt succeeded, how many it made, what it slept. */
  datatype RetryRun = RetryRun(succeeded: bool, attempts: nat, delays: seq<nat>)

  /**
   * The attempts from `k` on of a loop of `MaxRetries` attempts whose
   * attempt `j` succeeds when `ok(j)`; `delay` is the current
   * `retry_delay`.  No sleep follows the last attempt.
   */
  function RetryFrom(ok: nat -> bool, k: nat, delay: nat): (r: RetryRun)
    requires k < MaxRetries
    ensures k < r.attempts <= MaxRetries
    ensures r.delays == Doubling(delay, r.attempts - 1 - k)
    ensures forall j :: k <= j < r.attempts - 1 ==> !ok(j)
    ensures r.succeeded ==> ok(r.attempts - 1)
    ensures !r.succeeded ==> r.attempts == MaxRetries && !ok(MaxRetries - 1)
    decreases MaxRetries - k
  {
    if ok(k) then RetryRun(true, k + 1, [])
    else if k == MaxRetries - 1 then RetryRun(false, MaxRetries, [])
    else
      var rest := RetryFrom(ok, k + 1, 2 * delay);
      RetryRun(rest.succeeded, rest.attempts, [delay] + rest.delays)
  }

  function Retry(ok: nat -> bool, firstDelay: nat): RetryRun {
    RetryFrom(ok, 0, firstDelay)
  }

  /** Three failed attempts sleep `d` and `2d`, then give up (the source then raises). */
  lemma AllAttemptsFail(ok: nat -> bool, d: nat)
    requires forall j :: !ok(j)
    ensures Retry(ok, d) == RetryRun(false, 3, [d, 2 * d])
  {
    var r := Retry(ok, d);
    assert r.attempts == 3;
    assert Doubling(d, 2) == [d] + Doubling(2 * d, 1);
  }

  /** The embedding delays are 1 and 2 seconds, the upsert delays 2 and 4. */
  lemma RetryDelaySchedules(ok: nat -> bool)
    ensures Retry(ok, EmbedDelay).delays <= [1, 2]
    ensures Retry(ok, UpsertDelay).delays <= [2, 4]
  {
    var e := Retry(ok, EmbedDelay);
    var u := Retry(ok, UpsertDelay);
    assert Doubling(1, 2) == [1, 2] by { assert Doubling(1, 2) == [1] + Doubling(2, 1); }
    assert Doubling(2, 2) == [2, 4] by { assert Doubling(2, 2) == [2] + Doubling(4, 1); }
    assert Doubling(1, 1) == [1] && Doubling(2, 1) == [2];
  }

  /** The delays slept so far, followed by what the remaining attempts do. */
  function Resume(delays: seq<nat>, rest: RetryRun): RetryRun {
    RetryRun(rest.succeeded, rest.attempts, delays + rest.delays)
  }

  lemma ResumeAfterFailure(ok: nat -> bool, k: nat, d: nat, delays: seq<nat>)
    requires k + 1 < MaxRetries && !ok(k)
    ensures Resume(delays, RetryFrom(ok, k, d)) == Resume(delays + [d], RetryFrom(ok, k + 1, 2 * d))
  {
    var rest := RetryFrom(ok, k + 1, 2 * d);
    assert delays + ([d] + rest.delays) == (delays + [d]) + rest.delays;
  }

  /** The attempt loop shared by `get_embedding`, the upsert of a batch and `query`. */
  method RetryLoop(ok: nat -> bool, firstDelay: nat) returns (succeeded: bool, attempts: nat, delays: seq<nat>)
    ensures RetryRun(succeeded, attempts, delays) == Retry(ok, firstDelay)
  {
    var retryDelay := firstDelay;
    var attempt: nat := 0;
    delays := [];
    assert Resume([], Retry(ok, firstDelay)) == Retry(ok, firstDelay);
    while attempt < MaxRetries
      invariant attempt < MaxRetries
      invariant Retry(ok, firstDelay) == Resume(delays, RetryFrom(ok, attempt, retryDelay))
      decreases MaxRetries - attempt
    {
      if ok(attempt) {
        assert delays + [] == delays;
        return true, attempt + 1, delays;
      }
      if attempt == MaxRetries - 1 {
        assert delays + [] == delays;
        return false, MaxRetries, delays;
      }
      ResumeAfterFailure(ok, attempt, retryDelay, delays);
      delays := delays + [retryDelay];
      retryDelay := retryDelay * 2;
      attempt := attempt + 1;
    }
  }

  // ---------------------------------------------------------------------
  // Embedding
  // ---------------------------------------------------------------------

  /** The embedding service: the vector for a text, or a failure, at a recursion depth and attempt. */
  type Embedder = (string, nat, nat) -> Option<Vector>

  function EmbedOk(embed: Embedder, text: string, depth: nat): nat -> bool {
    (k: nat) => embed(text, depth, k).Some?
  }

  /** `get_embedding`: the vector of the first of three attempts that succeeds. */
  function Embedding(embed: Embedder, text: string, depth: nat): (r: Option<Vector>)
    ensures r.Some? <==> exists k :: 0 <= k < MaxRetries && embed(text, depth, k).Some?
    ensures r.Some? ==> exists k :: 0 <= k < MaxRetries && r == embed(text, depth, k)
                                 && (forall j :: 0 <= j < k ==> embed(text, depth, j).None?)
  {
    var run := Retry(EmbedOk(embed, text, depth), EmbedDelay);
    assert forall j :: EmbedOk(embed, text, depth)(j) == embed(text, depth, j).Some?;
    if run.succeeded then embed(text, depth, run.attempts - 1) else None
  }

  method GetEmbedding(embed: Embedder, text: string, depth: nat) returns (r: Option<Vector>, delays: seq<nat>)
    ensures r == Embedding(embed, text, depth)
    ensures delays <= [1, 2]
  {
    var succeeded, attempts;
    succeeded, attempts, delays := RetryLoop(EmbedOk(embed, text, depth), EmbedDelay);
    RetryDelaySchedules(EmbedOk(embed, text, depth));
    if succeeded {
      r := embed(text, depth, attempts - 1);
    } else {
      r := None;
    }
  }

  // ---------------------------------------------------------------------
  // Chunks, search text and records
  // ---------------------------------------------------------------------

  /**
   * One entry of a chunk's `answer_examples`: a `{"question", "answer"}`
   * dict (a missing key reads as "") or a plain string.
   */
  datatype AnswerExample = QaItem(question: string, answer: string) | TextItem(s: string)

  /**
   * A chunk as `upload_chunks` receives it: its id and text, its top-level
   * keys (`filename`, `chunk_id`), its `metadata` dict, and the
   * `answer_examples` list of that dict (absent = []).
   */
  datatype IndexChunk = IndexChunk(
    id: string,
    text: string,
    fields: map<string, Json>,
    metadata: map<string, Json>,
    answerExamples: seq<AnswerExample>)

  function QaLine(e: AnswerExample): string
    requires e.QaItem?
  {
    "Q: " + e.question + "\nA: " + e.answer
  }

  function TextOf(e: AnswerExample): string
    requires e.TextItem?
  {
    e.s
  }

  /** Every example has the kind of the first one. */
  predicate Uniform(es: seq<AnswerExample>) {
    forall k :: 0 <= k < |es| ==> es[k].QaItem? == es[0].QaItem?
  }

  /**
   * The rendering of a non-empty example list: "Q:/A:" blocks when the first
   * is a dict, the strings themselves otherwise, joined by "\n".  A list
   * that mixes the two kinds raises in the source (`.get` on a string, or
   * `join` over a dict).
   */
  function RenderAnswers(es: seq<AnswerExample>): (r: Option<string>)
    requires es != []
    ensures r.Some? <==> Uniform(es)
  {
    if !Uniform(es) then None
    else Some(Join(RenderedItems(es), "\n"))
  }

  const AnswerTitle := "回答例:"
  const AnswerHeader := AnswerTitle + "\n"

  /**
   * The lines an example list is rendered into: a "Q: " line and an "A: "
   * line per dict, the string itself per plain string.
   */
  function ExampleLines(es: seq<AnswerExample>): (r: seq<string>)
    ensures |r| >= |es|
  {
    if es == [] then []
    else
      var head := match es[0]
        case QaItem(q, a) => ["Q: " + q, "A: " + a]
        case TextItem(t) => [t];
      head + ExampleLines(es[1..])
  }

  /**
   * The lines of the search text: the chunk text alone without examples;
   * otherwise the "回答例:" title, the example lines, a blank line and the
   * chunk text.
   */
  function SearchLines(c: IndexChunk): seq<string> {
    if c.answerExamples == [] then [c.text]
    else [AnswerTitle] + ExampleLines(c.answerExamples) + ["", c.text]
  }

  /** The text that is embedded and stored as `search_text`; None when building it raises. */
  function SearchText(c: IndexChunk): (r: Option<string>)
    ensures c.answerExamples == [] ==> r == Some(c.text)
    ensures c.answerExamples != [] ==> (r.Some? <==> Uniform(c.answerExamples))
    ensures r.Some? ==> r.value == Join(SearchLines(c), "\n")
  {
    if c.answerExamples == [] then Some(c.text)
    else match RenderAnswers(c.answerExamples)
      case None => None
      case Some(answers) =>
        SearchTextJoin(c);
        Some(AnswerHeader + answers + "\n\n" + c.text)
  }

  lemma SearchTextJoin(c: IndexChunk)
    requires c.answerExamples != [] && Uniform(c.answerExamples)
    ensures AnswerHeader + RenderAnswers(c.answerExamples).value + "\n\n" + c.text == Join(SearchLines(c), "\n")
  {
    var es := c.answerExamples;
    var lines := ExampleLines(es);
    RenderedLines(es);
    var answers := RenderAnswers(es).value;
    assert answers == Join(lines, "\n");
    var tail := ["", c.text];
    var nl := "\n";
    JoinCons("", [c.text], nl);
    assert Join(tail, nl) == nl + c.text;
    JoinAppend(lines, tail, nl);
    var body := Join(lines + tail, nl);
    assert body == answers + (nl + (nl + c.text));
    JoinCons(AnswerTitle, lines + tail, nl);
    assert SearchLines(c) == [AnswerTitle] + (lines + tail);
    assert Join(SearchLines(c), nl) == AnswerHeader + body;
    assert "\n\n" == nl + nl;
    assert AnswerHeader + answers + "\n\n" + c.text == AnswerHeader + (answers + (nl + (nl + c.text))) by {
      AppendAssoc(answers, nl, nl + c.text);
      AppendAssoc(nl, nl, c.text);
    }
  }

  /** `sep.join(a + b)` is the two joins with `sep` between them. */
  lemma {:induction false} JoinAppend(a: seq<string>, b: seq<string>, sep: string)
    requires a != [] && b != []
    ensures Join(a + b, sep) == Join(a, sep) + sep + Join(b, sep)
  {
    if |a| == 1 {
      JoinCons(a[0], b, sep);
      assert a + b == [a[0]] + b;
    } else {
      var h, t := a[0], a[1..];
      assert a + b == [h] + (t + b);
      assert Join(a, sep) == h + sep + Join(t, sep);
      calc {
        Join(a + b, sep);
        { JoinCons(h, t + b, sep); }
        h + sep + Join(t + b, sep);
        { JoinAppend(t, b, sep); }
        h + sep + (Join(t, sep) + sep + Join(b, sep));
        Join(a, sep) + sep + Join(b, sep);
      }
    }
  }

  /** The rendering of a uniform list is its example lines joined by newlines. */
  lemma {:induction false} RenderedLines(es: seq<AnswerExample>)
    requires es != [] && Uniform(es)
    ensures RenderAnswers(es).value == Join(ExampleLines(es), "\n")
  {
    var items := RenderedItems(es);
    assert RenderAnswers(es).value == Join(items, "\n");
    JoinItems(es);
  }

  /** Each example rendered on its own, as the source's comprehension does for a uniform list. */
  function RenderedItems(es: seq<AnswerExample>): (r: seq<string>)
    ensures |r| == |es|
  {
    seq(|es|, k requires 0 <= k < |es| => if es[k].QaItem? then QaLine(es[k]) else TextOf(es[k]))
  }

  lemma {:induction false} JoinItems(es: seq<AnswerExample>)
    requires es != []
    ensures Join(RenderedItems(es), "\n") == Join(ExampleLines(es), "\n")
  {
    var items := RenderedItems(es);
    var head := ExampleLines([es[0]]);
    assert ExampleLines([es[0]]) == head + ExampleLines([]) by {
      assert [es[0]][1..] == [];
    }
    assert Join(head, "\n") == items[0] by {
      if es[0].QaItem? {
        JoinCons("Q: " + es[0].question, ["A: " + es[0].answer], "\n");
      }
    }
    assert ExampleLines(es) == head + ExampleLines(es[1..]);
    if |es| > 1 {
      JoinItems(es[1..]);
      assert items[1..] == RenderedItems(es[1..]);
      JoinCons(items[0], items[1..], "\n");
      assert items == [items[0]] + items[1..];
      JoinAppend(head, ExampleLines(es[1..]), "\n");
    } else {
      assert ExampleLines(es[1..]) == [];
      assert ExampleLines(es) == head;
    }
  }

  /**
   * When no line contains a newline, the search text splits back into its
   * lines: the title, every question and answer (or string) in order, a
   * blank line and the chunk text.
   */
  lemma SearchTextSplitsIntoLines(c: IndexChunk)
    requires SearchText(c).Some?
    requires forall k :: 0 <= k < |SearchLines(c)| ==> '\n' !in SearchLines(c)[k]
    ensures Split(SearchText(c).value, "\n") == SearchLines(c)
  {
    JoinSplitChar(SearchLines(c), '\n');
  }

  /** The `metadata` dict written with each vector. */
  datatype VectorMetadata = VectorMetadata(
    text: string,
    filename: Json,
    chunkId: Json,
    mainCategory: Json,
    subCategory: Json,
    city: Json,
    createdDate: Json,
    uploadDate: Json,
    source: Json,
    answerExamples: seq<string>,
    verified: Json,
    timestampType: Json,
    validFor: Json,
    latitude: Json,
    longitude: Json,
    address: Json,
    facilityName: Json,
    walkingDistance: Json,
    walkingMinutes: Json,
    straightDistance: Json,
    searchText: string)

  datatype VectorRecord = VectorRecord(id: string, values: Vector, metadata: VectorMetadata)

  const NoText := JStr([])
  /** The float 0.0 of the coordinates and the int 0 of the distances. */
  const Zero := JNum(0.0)
  const IntZero := JInt(0)

  /** A coordinate: the stored value unless it is absent or None, then 0.0. */
  function Coordinate(m: map<string, Json>, key: string): Json {
    if key in m && m[key] != JNull then m[key] else Zero
  }

  function MetadataFor(c: IndexChunk, searchText: string): VectorMetadata {
    var m := c.metadata;
    VectorMetadata(
      c.text,
      GetField(c.fields, "filename", NoText),
      GetField(c.fields, "chunk_id", NoText),
      GetField(m, "main_category", NoText),
      GetField(m, "sub_category", NoText),
      GetField(m, "city", NoText),
      GetField(m, "created_date", NoText),
      GetField(m, "upload_date", NoText),
      GetField(m, "source", NoText),
      ToStrings(c.answerExamples),
      GetField(m, "verified", JBool(false)),
      GetField(m, "timestamp_type", JStr("static")),
      GetField(m, "valid_for", JArray([])),
      Coordinate(m, "latitude"),
      Coordinate(m, "longitude"),
      GetField(m, "address", NoText),
      GetField(m, "facility_name", NoText),
      GetField(m, "walking_distance", IntZero),
      GetField(m, "walking_minutes", IntZero),
      GetField(m, "straight_distance", IntZero),
      searchText)
  }

  function MakeRecord(c: IndexChunk, v: Vector, searchText: string): VectorRecord {
    VectorRecord(c.id, v, MetadataFor(c, searchText))
  }

  /**
   * A chunk with no metadata at all gets every default: "" for the text
   * fields, False, "static", [], 0.0 for the coordinates and 0 for the
   * distances.
   */
  lemma BareChunkDefaults(c: IndexChunk, v: Vector, searchText: string)
    requires c.fields == map[] && c.metadata == map[] && c.answerExamples == []
    ensures MakeRecord(c, v, searchText) == VectorRecord(c.id, v, VectorMetadata(
      c.text, NoText, NoText, NoText, NoText, NoText, NoText, NoText, NoText, [],
      JBool(false), JStr("static"), JArray([]), Zero, Zero,
      NoText, NoText, IntZero, IntZero, IntZero, searchText))
  {
    assert ToStrings([]) == [];
  }

  /**
   * An explicit None is kept for ordinary keys (the `.get` default applies
   * only to absent keys) but becomes 0.0 for the coordinates.
   */
  lemma NoneCoordinatesBecomeZero(c: IndexChunk, v: Vector, searchText: string)
    requires c.metadata == map["latitude" := JNull, "longitude" := JNull, "city" := JNull]
    ensures var md := MakeRecord(c, v, searchText).metadata;
      md.latitude == Zero && md.longitude == Zero && md.city == JNull
  {
  }

  /** The stored id, text and search text are the chunk's own. */
  lemma RecordCarriesChunk(c: IndexChunk, v: Vector)
    requires SearchText(c).Some?
    ensures var r := MakeRecord(c, v, SearchText(c).value);
      r.id == c.id && r.values == v && r.metadata.text == c.text
      && r.metadata.searchText == SearchText(c).value
      && EndsWith(r.metadata.searchText, c.text)
  {
  }

  // ---------------------------------------------------------------------
  // Answer-example converters
  // ---------------------------------------------------------------------

  const QuestionPrefix := "質問: "
  const AnswerSep := ", 回答: "
  const AnswerPrefix := "回答: "

  /** One example as `_convert_answer_examples_to_strings` writes it; None drops it. */
  function ExampleToString(e: AnswerExample): Option<string> {
    match e
    case TextItem(s) => Some(s)
    case QaItem(q, a) =>
      if q != [] && a != [] then Some(QuestionPrefix + q + AnswerSep + a)
      else if q != [] then Some(QuestionPrefix + q)
      else if a != [] then Some(AnswerPrefix + a)
      else None
  }

  function ToStrings(es: seq<AnswerExample>): (r: seq<string>)
    ensures |r| <= |es|
  {
    if es == [] then []
    else
      var prev := ToStrings(es[..|es| - 1]);
      match ExampleToString(es[|es| - 1])
      case None => prev
      case Some(s) => prev + [s]
  }

  method ConvertAnswerExamplesToStrings(es: seq<AnswerExample>) returns (converted: seq<string>)
    ensures converted == ToStrings(es)
  {
    converted := [];
    for i := 0 to |es|
      invariant converted == ToStrings(es[..i])
    {
      assert es[..i + 1][..i] == es[..i];
      match es[i]
      case TextItem(s) =>
        converted := converted + [s];
      case QaItem(q, a) =>
        if q != [] && a != [] {
          converted := converted + [QuestionPrefix + q + AnswerSep + a];
        } else if q != [] {
          converted := converted + [QuestionPrefix + q];
        } else if a != [] {
          converted := converted + [AnswerPrefix + a];
        }
    }
    assert es[..|es|] == es;
  }

  lemma {:induction false} ToStringsAppend(a: seq<AnswerExample>, b: seq<AnswerExample>)
    ensures ToStrings(a + b) == ToStrings(a) + ToStrings(b)
    decreases |b|
  {
    if b != [] {
      var b' := b[..|b| - 1];
      ToStringsAppend(a, b');
      assert (a + b)[..|a + b| - 1] == a + b';
      assert (a + b)[|a + b| - 1] == b[|b| - 1];
    } else {
      assert a + b == a;
    }
  }

  /** A dict with neither question nor answer is dropped; everything else gives one string. */
  lemma ToStringsDropsOnlyEmptyDicts(es: seq<AnswerExample>, e: AnswerExample)
    ensures ToStrings(es + [e]) == if e == QaItem([], []) then ToStrings(es) else ToStrings(es) + [ExampleToString(e).value]
  {
    assert (es + [e])[..|es|] == es;
  }

  /** One string as `_convert_answer_examples_from_strings` reads it back. */
  function ExampleFromString(s: string): AnswerExample {
    if Contains(s, "質問:") && Contains(s, "回答:") then
      var parts := Split(s, AnswerSep);
      if |parts| == 2 then QaItem(ReplaceAll(parts[0], QuestionPrefix, []), parts[1])
      else QaItem([], s)
    else QaItem([], s)
  }

  function FromStrings(ss: seq<string>): (r: seq<AnswerExample>)
    ensures |r| == |ss|
  {
    seq(|ss|, k requires 0 <= k < |ss| => ExampleFromString(ss[k]))
  }

  method ConvertAnswerExamplesFromStrings(ss: seq<string>) returns (converted: seq<AnswerExample>)
    ensures converted == FromStrings(ss)
  {
    converted := [];
    for i := 0 to |ss|
      invariant converted == FromStrings(ss[..i])
    {
      var s := ss[i];
      if Contains(s, "質問:") && Contains(s, "回答:") {
        var parts := Split(s, AnswerSep);
        if |parts| == 2 {
          converted := converted + [QaItem(ReplaceAll(parts[0], QuestionPrefix, []), parts[1])];
        } else {
          converted := converted + [QaItem([], s)];
        }
      } else {
        converted := converted + [QaItem([], s)];
      }
    }
    assert ss[..|ss|] == ss;
  }

  /** A string that does not look like a "質問: …, 回答: …" pair is kept whole as an answer. */
  lemma PlainStringBecomesAnswer(s: string)
    requires !Contains(s, "質問:")
    ensures FromStrings([s]) == [QaItem([], s)]
  {
  }

  /** A string of `x` with no occurrence of `pat`, after a prefix without `pat`'s first character. */
  lemma NoOccurrenceAfterForeignPrefix(p: string, x: string, pat: string)
    requires pat != [] && pat[0] !in p && !Contains(x, pat)
    ensures !Contains(p + x, pat)
  {
    var s := p + x;
    forall k: nat
      ensures !OccursAt(s, pat, k)
    {
      if k < |p| {
        if k + |pat| <= |s| {
          assert s[k..k + |pat|][0] == p[k];
          assert p[k] in p;
        }
      } else if OccursAt(s, pat, k) {
        assert s[k..k + |pat|] == x[k - |p|..k - |p| + |pat|];
        assert OccursAt(x, pat, k - |p|);
      }
    }
  }

  /** The conditions under which a question/answer dict survives the round trip. */
  predicate RoundTrips(e: AnswerExample) {
    e.QaItem? && e.question != [] && e.answer != []
    && !Contains(e.question, QuestionPrefix)
    && !Contains(e.question, AnswerSep) && !Contains(e.answer, AnswerSep)
  }

  lemma ExampleRoundTrip(e: AnswerExample)
    requires RoundTrips(e)
    ensures ExampleToString(e).Some? && ExampleFromString(ExampleToString(e).value) == e
  {
    var q, a := e.question, e.answer;
    var x := QuestionPrefix + q;
    var s := x + AnswerSep + a;
    assert ExampleToString(e) == Some(s);
    assert OccursAt(s, "質問:", 0) by { assert s[..3] == "質問:"; }
    ContainsIff(s, "質問:", 0);
    assert OccursAt(s, "回答:", |x| + 2) by { assert s[|x| + 2..|x| + 5] == "回答:"; }
    ContainsIff(s, "回答:", |x| + 2);
    NoOccurrenceAfterForeignPrefix(QuestionPrefix, q, AnswerSep);
    SplitAroundSeparator(x, AnswerSep, a);
    ReplaceLeadingOnly(QuestionPrefix, q);
  }

  lemma FromStringsSnoc(ss: seq<string>, s: string)
    ensures FromStrings(ss + [s]) == FromStrings(ss) + [ExampleFromString(s)]
  {
  }

  /** Writing examples out and reading them back restores them when each one round-trips. */
  lemma {:induction false} ConvertersRoundTrip(es: seq<AnswerExample>)
    requires forall k :: 0 <= k < |es| ==> RoundTrips(es[k])
    ensures FromStrings(ToStrings(es)) == es
  {
    if es != [] {
      var init := es[..|es| - 1];
      var e := es[|es| - 1];
      assert forall k :: 0 <= k < |init| ==> RoundTrips(init[k]) by {
        forall k | 0 <= k < |init| ensures RoundTrips(init[k]) { assert init[k] == es[k]; }
      }
      assert init + [e] == es;
      ConvertersRoundTrip(init);
      var s := ToStrings(init);
      ToStringsDropsOnlyEmptyDicts(init, e);
      ExampleRoundTrip(e);
      var x := ExampleToString(e).value;
      assert ToStrings(es) == s + [x];
      FromStringsSnoc(s, x);
    }
  }

  // ---------------------------------------------------------------------
  // Batching
  // ---------------------------------------------------------------------

  function Flatten<T>(ss: seq<seq<T>>): seq<T> {
    if ss == [] then [] else ss[0] + Flatten(ss[1..])
  }

  lemma {:induction false} FlattenAppend<T>(a: seq<seq<T>>, b: seq<seq<T>>)
    ensures Flatten(a + b) == Flatten(a) + Flatten(b)
  {
    if a == [] {
      assert a + b == b;
    } else {
      FlattenAppend(a[1..], b);
      assert Flatten(a + b) == a[0] + Flatten(a[1..] + b) by {
        assert (a + b)[1..] == a[1..] + b;
        assert (a + b)[0] == a[0];
      }
      AppendAssoc(a[0], Flatten(a[1..]), Flatten(b));
    }
  }

  /**
   * `chunks[i:i + batch_size]` for `i` in `range(0, len(chunks), batch_size)`:
   * consecutive slices of `n` elements, the last possibly shorter, that
   * together are the input.
   */
  function Batches<T>(s: seq<T>, n: nat): (r: seq<seq<T>>)
    requires n > 0
    ensures Flatten(r) == s
    ensures forall k :: 0 <= k < |r| ==> 0 < |r[k]| <= n
    ensures forall k :: 0 <= k < |r| - 1 ==> |r[k]| == n
    decreases |s|
  {
    if s == [] then []
    else if |s| <= n then
      assert Flatten([s]) == s + Flatten<T>([]);
      [s]
    else
      var rest := Batches(s[n..], n);
      var r := [s[..n]] + rest;
      assert r[1..] == rest;
      assert s == s[..n] + s[n..];
      r
  }

  // ---------------------------------------------------------------------
  // upload_chunks
  // ---------------------------------------------------------------------

  /** The index's upsert of a batch, by the batch's ids, at a recursion depth and attempt. */
  type Upserter = (seq<string>, nat, nat) -> bool

  function RecordIds(vs: seq<VectorRecord>): (r: seq<string>)
    ensures |r| == |vs|
  {
    seq(|vs|, k requires 0 <= k < |vs| => vs[k].id)
  }

  function ChunkIds(cs: seq<IndexChunk>): (r: seq<string>)
    ensures |r| == |cs|
  {
    seq(|cs|, k requires 0 <= k < |cs| => cs[k].id)
  }

  function UpsertOk(upsert: Upserter, ids: seq<string>, depth: nat): nat -> bool {
    (k: nat) => upsert(ids, depth, k)
  }

  predicate UpsertSucceeds(upsert: Upserter, vs: seq<VectorRecord>, depth: nat) {
    Retry(UpsertOk(upsert, RecordIds(vs), depth), UpsertDelay).succeeded
  }

  /** A chunk becomes a record when its search text can be built and embedded. */
  function EmbedChunk(c: IndexChunk, embed: Embedder, depth: nat): (r: Option<VectorRecord>)
    ensures r.Some? <==> SearchText(c).Some? && Embedding(embed, SearchText(c).value, depth).Some?
    ensures r.Some? ==> r.value.id == c.id && r.value.metadata.text == c.text
    ensures r.Some? ==> r.value.values == Embedding(embed, SearchText(c).value, depth).value
    ensures r.Some? ==> r.value.metadata.searchText == SearchText(c).value
  {
    match SearchText(c)
    case None => None
    case Some(t) =>
      match Embedding(embed, t, depth)
      case None => None
      case Some(v) => Some(MakeRecord(c, v, t))
  }

  /** The `vectors` and `retry_chunks` of one batch. */
  datatype BatchEmbedding = BatchEmbedding(vectors: seq<VectorRecord>, retry: seq<IndexChunk>)

  function EmbedBatch(batch: seq<IndexChunk>, embed: Embedder, depth: nat): (r: BatchEmbedding)
    ensures |r.vectors| + |r.retry| == |batch|
  {
    if batch == [] then BatchEmbedding([], [])
    else
      var prev := EmbedBatch(batch[..|batch| - 1], embed, depth);
      var c := batch[|batch| - 1];
      match EmbedChunk(c, embed, depth)
      case Some(rec) => prev.(vectors := prev.vectors + [rec])
      case None => prev.(retry := prev.retry + [c])
  }

  /**
   * What an upload did: the batches upserted, in order, and whether it
   * raised (an upsert that failed three times, a batch size of 0, or the
   * interpreter's recursion limit).
   */
  datatype UploadRun = UploadRun(upserted: seq<seq<VectorRecord>>, aborted: bool)

  const NothingDone := UploadRun([], false)

  /** Run `b` after `a`, unless `a` raised. */
  function Then(a: UploadRun, b: UploadRun): UploadRun {
    if a.aborted then a else UploadRun(a.upserted + b.upserted, b.aborted)
  }

  predicate NoEmptyUpsert(r: UploadRun) {
    forall k :: 0 <= k < |r.upserted| ==> r.upserted[k] != []
  }

  /**
   * `upload_chunks(chunks, batch_size)` at recursion depth `depth`.  The
   * source re-invokes itself on the failed chunks of every batch without a
   * bound of its own; `fuel` is the number of nested calls the
   * interpreter's recursion limit still allows.  A call past that limit
   * raises `RecursionError`, which every enclosing call catches and
   * re-raises, so the whole upload raises.
   */
  function Upload(chunks: seq<IndexChunk>, batchSize: int, embed: Embedder, upsert: Upserter, depth: nat, fuel: nat): (r: UploadRun)
    ensures NoEmptyUpsert(r)
    ensures chunks == [] ==> r == NothingDone
    decreases fuel, 1, 0
  {
    if chunks == [] then NothingDone
    else if fuel == 0 then UploadRun([], true)
    else if batchSize == 0 then UploadRun([], true)
    else if batchSize < 0 then NothingDone
    else UploadBatches(Batches(chunks, batchSize), batchSize, embed, upsert, depth, fuel - 1)
  }

  /** The batch loop, as a fold over the batches done so far. */
  function UploadBatches(bs: seq<seq<IndexChunk>>, batchSize: int, embed: Embedder, upsert: Upserter, depth: nat, fuel: nat): (r: UploadRun)
    ensures NoEmptyUpsert(r)
    decreases fuel, 3, |bs|
  {
    if bs == [] then NothingDone
    else Then(UploadBatches(bs[..|bs| - 1], batchSize, embed, upsert, depth, fuel),
              OneBatch(bs[|bs| - 1], batchSize, embed, upsert, depth, fuel))
  }

  /**
   * One batch: embed every chunk, upsert the vectors when there are any
   * (raising when three attempts fail), then re-upload the failed chunks
   * one level deeper.
   */
  function OneBatch(batch: seq<IndexChunk>, batchSize: int, embed: Embedder, upsert: Upserter, depth: nat, fuel: nat): (r: UploadRun)
    ensures NoEmptyUpsert(r)
    decreases fuel, 2, 0
  {
    var e := EmbedBatch(batch, embed, depth);
    var written := Written(e, upsert, depth);
    if written.aborted || e.retry == [] then written
    else Then(written, Upload(e.retry, batchSize, embed, upsert, depth + 1, fuel))
  }

  /** The upsert of a batch's vectors: none when there are none, a raise when three attempts fail. */
  function Written(e: BatchEmbedding, upsert: Upserter, depth: nat): (r: UploadRun)
    ensures NoEmptyUpsert(r)
  {
    if e.vectors == [] then NothingDone
    else if UpsertSucceeds(upsert, e.vectors, depth) then UploadRun([e.vectors], false)
    else UploadRun([], true)
  }

  lemma {:induction false} AbortIsFinal(bs: seq<seq<IndexChunk>>, more: seq<seq<IndexChunk>>, batchSize: int,
                                        embed: Embedder, upsert: Upserter, depth: nat, fuel: nat)
    requires UploadBatches(bs, batchSize, embed, upsert, depth, fuel).aborted
    ensures UploadBatches(bs + more, batchSize, embed, upsert, depth, fuel) == UploadBatches(bs, batchSize, embed, upsert, depth, fuel)
    decreases |more|
  {
    if more == [] {
      assert bs + more == bs;
    } else {
      var init := more[..|more| - 1];
      AbortIsFinal(bs, init, batchSize, embed, upsert, depth, fuel);
      assert (bs + more)[..|bs + more| - 1] == bs + init;
    }
  }

  // ---------------------------------------------------------------------
  // What an upload guarantees
  // ---------------------------------------------------------------------

  /** Every chunk of a batch becomes exactly one vector or one retry entry. */
  lemma {:induction false} EmbedBatchPartitions(batch: seq<IndexChunk>, embed: Embedder, depth: nat)
    ensures var e := EmbedBatch(batch, embed, depth);
      multiset(RecordIds(e.vectors)) + multiset(ChunkIds(e.retry)) == multiset(ChunkIds(batch))
  {
    if batch != [] {
      var init := batch[..|batch| - 1];
      var c := batch[|batch| - 1];
      var prev := EmbedBatch(init, embed, depth);
      var e := EmbedBatch(batch, embed, depth);
      EmbedBatchPartitions(init, embed, depth);
      ChunkIdsLast(batch);
      PartitionStep(prev, c, EmbedChunk(c, embed, depth));
    }
  }

  /** Adding one chunk's outcome to a batch's partition adds its id on exactly one side. */
  lemma PartitionStep(prev: BatchEmbedding, c: IndexChunk, outcome: Option<VectorRecord>)
    requires outcome.Some? ==> outcome.value.id == c.id
    ensures var e := match outcome
        case Some(rec) => prev.(vectors := prev.vectors + [rec])
        case None => prev.(retry := prev.retry + [c]);
      multiset(RecordIds(e.vectors)) + multiset(ChunkIds(e.retry))
        == multiset(RecordIds(prev.vectors)) + multiset(ChunkIds(prev.retry)) + multiset{c.id}
  {
    match outcome
    case Some(rec) =>
      RecordIdsSnoc(prev.vectors, rec);
    case None =>
      ChunkIdsSnoc(prev.retry, c);
  }

  lemma RecordIdsSnoc(vs: seq<VectorRecord>, v: VectorRecord)
    ensures RecordIds(vs + [v]) == RecordIds(vs) + [v.id]
  {
  }

  lemma ChunkIdsLast(cs: seq<IndexChunk>)
    requires cs != []
    ensures ChunkIds(cs) == ChunkIds(cs[..|cs| - 1]) + [cs[|cs| - 1].id]
  {
  }

  lemma ChunkIdsSnoc(cs: seq<IndexChunk>, c: IndexChunk)
    ensures ChunkIds(cs + [c]) == ChunkIds(cs) + [c.id]
  {
  }

  /** Exactly the chunks that cannot be rendered or embedded are retried. */
  lemma {:induction false} EmbedBatchRoutes(batch: seq<IndexChunk>, embed: Embedder, depth: nat)
    ensures var e := EmbedBatch(batch, embed, depth);
      forall c :: c in e.retry <==> c in batch && EmbedChunk(c, embed, depth).None?
  {
    if batch != [] {
      var init := batch[..|batch| - 1];
      EmbedBatchRoutes(init, embed, depth);
      assert batch == init + [batch[|batch| - 1]];
    }
  }

  /** Unless it raised, the run wrote exactly the chunk ids `ids`. */
  predicate Accounted(r: UploadRun, ids: multiset<string>) {
    !r.aborted ==> multiset(RecordIds(Flatten(r.upserted))) == ids
  }

  lemma ThenAccounted(a: UploadRun, b: UploadRun, ids1: multiset<string>, ids2: multiset<string>)
    requires Accounted(a, ids1) && Accounted(b, ids2)
    ensures Accounted(Then(a, b), ids1 + ids2)
  {
    if !a.aborted && !b.aborted {
      FlattenAppend(a.upserted, b.upserted);
      assert RecordIds(Flatten(a.upserted) + Flatten(b.upserted)) == RecordIds(Flatten(a.upserted)) + RecordIds(Flatten(b.upserted));
    }
  }

  function BatchIds(bs: seq<seq<IndexChunk>>): multiset<string> {
    if bs == [] then multiset{} else multiset(ChunkIds(bs[0])) + BatchIds(bs[1..])
  }

  lemma {:induction false} ChunkIdsFlatten(bs: seq<seq<IndexChunk>>)
    ensures multiset(ChunkIds(Flatten(bs))) == BatchIds(bs)
  {
    if bs != [] {
      ChunkIdsFlatten(bs[1..]);
      assert ChunkIds(bs[0] + Flatten(bs[1..])) == ChunkIds(bs[0]) + ChunkIds(Flatten(bs[1..]));
    }
  }

  lemma {:induction false} BatchIdsSnoc(bs: seq<seq<IndexChunk>>)
    requires bs != []
    ensures BatchIds(bs) == BatchIds(bs[..|bs| - 1]) + multiset(ChunkIds(bs[|bs| - 1]))
  {
    if |bs| > 1 {
      BatchIdsSnoc(bs[1..]);
      assert bs[1..][..|bs[1..]| - 1] == bs[..|bs| - 1][1..];
    }
  }

  /**
   * Unless it raised, an upload loses and duplicates nothing: every input
   * chunk is written exactly once.
   */
  lemma {:induction false} UploadAccountsForEveryChunk(chunks: seq<IndexChunk>, batchSize: int, embed: Embedder, upsert: Upserter, depth: nat, fuel: nat)
    requires batchSize > 0
    ensures Accounted(Upload(chunks, batchSize, embed, upsert, depth, fuel), multiset(ChunkIds(chunks)))
    decreases fuel, 1, 0
  {
    if chunks != [] && fuel > 0 {
      var bs := Batches(chunks, batchSize);
      UploadBatchesAccount(bs, batchSize, embed, upsert, depth, fuel - 1);
      ChunkIdsFlatten(bs);
    }
  }

  lemma {:induction false} UploadBatchesAccount(bs: seq<seq<IndexChunk>>, batchSize: int, embed: Embedder, upsert: Upserter, depth: nat, fuel: nat)
    requires batchSize > 0
    ensures Accounted(UploadBatches(bs, batchSize, embed, upsert, depth, fuel), BatchIds(bs))
    decreases fuel, 3, |bs|
  {
    if bs != [] {
      var init := bs[..|bs| - 1];
      var last := bs[|bs| - 1];
      UploadBatchesAccount(init, batchSize, embed, upsert, depth, fuel);
      OneBatchAccounts(last, batchSize, embed, upsert, depth, fuel);
      BatchIdsSnoc(bs);
      ThenAccounted(UploadBatches(init, batchSize, embed, upsert, depth, fuel), OneBatch(last, batchSize, embed, upsert, depth, fuel),
                    BatchIds(init), multiset(ChunkIds(last)));
    }
  }

  lemma {:induction false} OneBatchAccounts(batch: seq<IndexChunk>, batchSize: int, embed: Embedder, upsert: Upserter, depth: nat, fuel: nat)
    requires batchSize > 0
    ensures Accounted(OneBatch(batch, batchSize, embed, upsert, depth, fuel), multiset(ChunkIds(batch)))
    decreases fuel, 2, 0
  {
    var e := EmbedBatch(batch, embed, depth);
    EmbedBatchPartitions(batch, embed, depth);
    var written := Written(e, upsert, depth);
    assert Accounted(written, multiset(RecordIds(e.vectors))) by {
      if e.vectors == [] {
        assert RecordIds(e.vectors) == [];
      } else {
        assert [e.vectors][1..] == [];
        assert Flatten([e.vectors]) == e.vectors;
      }
    }
    if !written.aborted && e.retry != [] {
      UploadAccountsForEveryChunk(e.retry, batchSize, embed, upsert, depth + 1, fuel);
      ThenAccounted(written, Upload(e.retry, batchSize, embed, upsert, depth + 1, fuel),
                    multiset(RecordIds(e.vectors)), multiset(ChunkIds(e.retry)));
    }
  }

  /** The chunks whose search text cannot be built: they fail at every depth. */
  predicate Unrenderable(c: IndexChunk) {
    SearchText(c).None?
  }

  lemma ThenRaises(a: UploadRun, b: UploadRun)
    ensures Then(a, b).aborted <==> a.aborted || b.aborted
  {
  }

  /**
   * A chunk whose answer examples mix dicts and strings is never written:
   * it fails at every depth, so the upload recurses on it until the
   * recursion limit makes the whole upload raise.
   */
  lemma {:induction false} UnrenderableMakesUploadRaise(chunks: seq<IndexChunk>, batchSize: int, embed: Embedder, upsert: Upserter, depth: nat, fuel: nat)
    requires batchSize > 0
    requires exists c :: c in chunks && Unrenderable(c)
    ensures Upload(chunks, batchSize, embed, upsert, depth, fuel).aborted
    decreases fuel, 1, 0
  {
    if fuel > 0 {
      var bs := Batches(chunks, batchSize);
      var c :| c in chunks && Unrenderable(c);
      UploadBatchesRaise(bs, batchSize, embed, upsert, depth, fuel - 1, c);
    }
  }

  lemma {:induction false} UploadBatchesRaise(bs: seq<seq<IndexChunk>>, batchSize: int, embed: Embedder, upsert: Upserter, depth: nat, fuel: nat, c: IndexChunk)
    requires batchSize > 0
    requires c in Flatten(bs) && Unrenderable(c)
    ensures UploadBatches(bs, batchSize, embed, upsert, depth, fuel).aborted
    decreases fuel, 3, |bs|
  {
    var init := bs[..|bs| - 1];
    var last := bs[|bs| - 1];
    assert bs == init + [last];
    FlattenAppend(init, [last]);
    assert [last][1..] == [];
    assert Flatten([last]) == last;
    ThenRaises(UploadBatches(init, batchSize, embed, upsert, depth, fuel), OneBatch(last, batchSize, embed, upsert, depth, fuel));
    if c in last {
      OneBatchRaises(last, batchSize, embed, upsert, depth, fuel, c);
    } else {
      UploadBatchesRaise(init, batchSize, embed, upsert, depth, fuel, c);
    }
  }

  lemma {:induction false} OneBatchRaises(batch: seq<IndexChunk>, batchSize: int, embed: Embedder, upsert: Upserter, depth: nat, fuel: nat, c: IndexChunk)
    requires batchSize > 0
    requires c in batch && Unrenderable(c)
    ensures OneBatch(batch, batchSize, embed, upsert, depth, fuel).aborted
    decreases fuel, 2, 0
  {
    var e := EmbedBatch(batch, embed, depth);
    EmbedBatchRoutes(batch, embed, depth);
    assert c in e.retry;
    var written := Written(e, upsert, depth);
    if !written.aborted {
      UnrenderableMakesUploadRaise(e.retry, batchSize, embed, upsert, depth + 1, fuel);
    }
  }

  /**
   * When every chunk renders, every embedding call and every upsert
   * succeeds, an upload does not raise; with the accounting above, every
   * chunk is written exactly once.
   */
  lemma {:induction false} ReliableServicesUploadEverything(chunks: seq<IndexChunk>, batchSize: int, embed: Embedder, upsert: Upserter, depth: nat, fuel: nat)
    requires batchSize > 0 && fuel > 0
    requires forall c :: c in chunks ==> !Unrenderable(c)
    requires forall t, d, k :: embed(t, d, k).Some?
    requires forall ids, d, k :: upsert(ids, d, k)
    ensures !Upload(chunks, batchSize, embed, upsert, depth, fuel).aborted
  {
    if chunks != [] {
      var bs := Batches(chunks, batchSize);
      forall k | 0 <= k < |bs|
        ensures forall c :: c in bs[k] ==> !Unrenderable(c)
      {
        FlattenMember(bs, k);
      }
      ReliableBatches(bs, batchSize, embed, upsert, depth, fuel - 1);
    }
  }

  lemma {:induction false} FlattenMember<T>(ss: seq<seq<T>>, k: nat)
    requires k < |ss|
    ensures forall x :: x in ss[k] ==> x in Flatten(ss)
  {
    if k > 0 {
      FlattenMember(ss[1..], k - 1);
    }
  }

  lemma {:induction false} ReliableBatches(bs: seq<seq<IndexChunk>>, batchSize: int, embed: Embedder, upsert: Upserter, depth: nat, fuel: nat)
    requires forall k, c :: 0 <= k < |bs| && c in bs[k] ==> !Unrenderable(c)
    requires forall t, d, k :: embed(t, d, k).Some?
    requires forall ids, d, k :: upsert(ids, d, k)
    ensures !UploadBatches(bs, batchSize, embed, upsert, depth, fuel).aborted
  {
    if bs != [] {
      var last := bs[|bs| - 1];
      ReliableBatches(bs[..|bs| - 1], batchSize, embed, upsert, depth, fuel);
      var e := EmbedBatch(last, embed, depth);
      forall c | c in last
        ensures EmbedChunk(c, embed, depth).Some?
      {
        assert 0 <= |bs| - 1 < |bs| && c in bs[|bs| - 1];
        assert !Unrenderable(c);
        var t := SearchText(c).value;
        assert embed(t, depth, 0).Some?;
      }
      EmbedBatchAllSucceed(last, embed, depth);
      if e.vectors != [] {
        assert UpsertOk(upsert, RecordIds(e.vectors), depth)(0);
      }
    }
  }

  lemma {:induction false} EmbedBatchAllSucceed(batch: seq<IndexChunk>, embed: Embedder, depth: nat)
    requires forall c :: c in batch ==> EmbedChunk(c, embed, depth).Some?
    ensures EmbedBatch(batch, embed, depth).retry == []
  {
    if batch != [] {
      var init := batch[..|batch| - 1];
      assert forall c :: c in init ==> c in batch;
      EmbedBatchAllSucceed(init, embed, depth);
      assert batch[|batch| - 1] in batch;
    }
  }

  /** `batch_size` 0 makes `range` raise; a negative one writes nothing and reports nothing. */
  lemma OddBatchSizes(chunks: seq<IndexChunk>, embed: Embedder, upsert: Upserter, depth: nat, fuel: nat, negative: int)
    requires chunks != [] && fuel > 0 && negative < 0
    ensures Upload(chunks, 0, embed, upsert, depth, fuel).aborted
    ensures Upload(chunks, negative, embed, upsert, depth, fuel) == UploadRun([], false)
  {
  }

  /** The `vectors` and `retry_chunks` loop of one batch. */
  method EmbedBatchChunks(batch: seq<IndexChunk>, embed: Embedder, depth: nat) returns (vectors: seq<VectorRecord>, retry: seq<IndexChunk>)
    ensures BatchEmbedding(vectors, retry) == EmbedBatch(batch, embed, depth)
  {
    vectors, retry := [], [];
    for j := 0 to |batch|
      invariant BatchEmbedding(vectors, retry) == EmbedBatch(batch[..j], embed, depth)
    {
      var chunk := batch[j];
      assert batch[..j + 1][..j] == batch[..j];
      var searchText := SearchText(chunk);
      if searchText.None? {
        retry := retry + [chunk];
      } else {
        var vector, delays := GetEmbedding(embed, searchText.value, depth);
        if vector.None? {
          retry := retry + [chunk];
        } else {
          vectors := vectors + [MakeRecord(chunk, vector.value, searchText.value)];
        }
      }
    }
    assert batch[..|batch|] == batch;
  }

  /** The writer: the batches it has upserted to the index, in order. */
  class PineconeService {
    var upserted: seq<seq<VectorRecord>>

    constructor ()
      ensures upserted == []
    {
      upserted := [];
    }

    /** The upsert loop of a batch: three attempts, 2 then 4 seconds apart. */
    method UpsertBatch(vectors: seq<VectorRecord>, upsert: Upserter, depth: nat) returns (ok: bool)
      modifies this
      ensures ok == UpsertSucceeds(upsert, vectors, depth)
      ensures upserted == old(upserted) + (if ok then [vectors] else [])
    {
      var attempts, delays;
      ok, attempts, delays := RetryLoop(UpsertOk(upsert, RecordIds(vectors), depth), UpsertDelay);
      if ok {
        upserted := upserted + [vectors];
      }
    }

    /** `upload_chunks`, with `fuel` nested calls left before the recursion limit; `aborted` is a raise. */
    method UploadChunks(chunks: seq<IndexChunk>, batchSize: int, embed: Embedder, upsert: Upserter, depth: nat, fuel: nat)
      returns (aborted: bool)
      modifies this
      ensures var r := Upload(chunks, batchSize, embed, upsert, depth, fuel);
        upserted == old(upserted) + r.upserted && aborted == r.aborted
      decreases fuel, 1
    {
      if chunks == [] {
        return false;
      }
      if fuel == 0 || batchSize == 0 {
        return true;
      }
      if batchSize < 0 {
        return false;
      }
      aborted := UploadInBatches(chunks, batchSize, embed, upsert, depth, fuel - 1);
    }

    /** The loop over `range(0, len(chunks), batch_size)`. */
    method UploadInBatches(chunks: seq<IndexChunk>, batchSize: int, embed: Embedder, upsert: Upserter, depth: nat, fuel: nat)
      returns (aborted: bool)
      requires batchSize > 0
      modifies this
      ensures var r := UploadBatches(Batches(chunks, batchSize), batchSize, embed, upsert, depth, fuel);
        upserted == old(upserted) + r.upserted && aborted == r.aborted
      decreases fuel, 3
    {
      ghost var bs := Batches(chunks, batchSize);
      ghost var done: seq<seq<IndexChunk>> := [];
      ghost var start := upserted;
      var i := 0;
      while i < |chunks|
        invariant 0 <= i <= |chunks|
        invariant bs == done + Batches(chunks[i..], batchSize)
        invariant var r := UploadBatches(done, batchSize, embed, upsert, depth, fuel);
          upserted == old(upserted) + r.upserted && !r.aborted
        decreases |chunks| - i
      {
        var end := if i + batchSize < |chunks| then i + batchSize else |chunks|;
        var batch := chunks[i..end];
        NextBatch(chunks, i, end, batchSize);
        ghost var before := UploadBatches(done, batchSize, embed, upsert, depth, fuel);
        ghost var one := OneBatch(batch, batchSize, embed, upsert, depth, fuel);
        ghost var mid := upserted;
        var ab := ProcessBatch(batch, batchSize, embed, upsert, depth, fuel);
        assert upserted == mid + one.upserted && ab == one.aborted;
        UploadBatchesSnoc(done, batch, batchSize, embed, upsert, depth, fuel);
        ghost var rest := Batches(chunks[end..], batchSize);
        AppendAssoc(done, [batch], rest);
        done := done + [batch];
        assert UploadBatches(done, batchSize, embed, upsert, depth, fuel)
          == UploadRun(before.upserted + one.upserted, one.aborted);
        AppendAssoc(start, before.upserted, one.upserted);
        if ab {
          AbortIsFinal(done, Batches(chunks[end..], batchSize), batchSize, embed, upsert, depth, fuel);
          return true;
        }
        i := end;
      }
      assert bs == done by { assert chunks[i..] == []; }
      aborted := false;
    }

    /** One batch: embed, upsert what embedded, then re-upload what failed. */
    method ProcessBatch(batch: seq<IndexChunk>, batchSize: int, embed: Embedder, upsert: Upserter, depth: nat, fuel: nat)
      returns (aborted: bool)
      modifies this
      ensures var r := OneBatch(batch, batchSize, embed, upsert, depth, fuel);
        upserted == old(upserted) + r.upserted && aborted == r.aborted
      decreases fuel, 2
    {
      ghost var written := Written(EmbedBatch(batch, embed, depth), upsert, depth);
      var retry, failed := WriteBatch(batch, embed, upsert, depth);
      if failed {
        return true;
      }
      aborted := false;
      if retry != [] {
        ghost var mid := upserted;
        aborted := UploadChunks(retry, batchSize, embed, upsert, depth + 1, fuel);
        AppendAssoc(old(upserted), written.upserted, upserted[|mid|..]);
      }
    }

    /** Embedding the chunks of a batch and upserting the vectors, if any. */
    method WriteBatch(batch: seq<IndexChunk>, embed: Embedder, upsert: Upserter, depth: nat)
      returns (retry: seq<IndexChunk>, failed: bool)
      modifies this
      ensures var e := EmbedBatch(batch, embed, depth);
        var w := Written(e, upsert, depth);
        upserted == old(upserted) + w.upserted && failed == w.aborted && retry == e.retry
    {
      var vectors;
      vectors, retry := EmbedBatchChunks(batch, embed, depth);
      failed := false;
      if vectors != [] {
        var ok := UpsertBatch(vectors, upsert, depth);
        failed := !ok;
      }
    }
  }

  /** The batch after position `i` is the slice up to `end`, and the rest follow it. */
  lemma NextBatch(chunks: seq<IndexChunk>, i: nat, end: nat, batchSize: int)
    requires batchSize > 0 && i < |chunks|
    requires end == if i + batchSize < |chunks| then i + batchSize else |chunks|
    ensures Batches(chunks[i..], batchSize) == [chunks[i..end]] + Batches(chunks[end..], batchSize)
  {
    assert chunks[i..][end - i..] == chunks[end..];
    assert chunks[i..][..end - i] == chunks[i..end];
  }

  lemma UploadBatchesSnoc(done: seq<seq<IndexChunk>>, batch: seq<IndexChunk>, batchSize: int, embed: Embedder, upsert: Upserter, depth: nat, fuel: nat)
    ensures UploadBatches(done + [batch], batchSize, embed, upsert, depth, fuel)
      == Then(UploadBatches(done, batchSize, embed, upsert, depth, fuel), OneBatch(batch, batchSize, embed, upsert, depth, fuel))
  {
    assert (done + [batch])[..|done|] == done;
  }

  // ---------------------------------------------------------------------
  // query
  // ---------------------------------------------------------------------

  /** A candidate returned by the index. */
  datatype Match = Match(id: string, score: real, metadata: map<string, Json>)

  /** `[m for m in matches if m.score >= similarity_threshold]`. */
  function FilterByThreshold(ms: seq<Match>, threshold: real): (r: seq<Match>)
    ensures |r| <= |ms|
  {
    if ms == [] then []
    else (if ms[0].score >= threshold then [ms[0]] else []) + FilterByThreshold(ms[1..], threshold)
  }

  /** Exactly the candidates scoring at least the threshold are kept. */
  lemma {:induction false} FilterKeepsExactly(ms: seq<Match>, threshold: real)
    ensures forall m :: m in FilterByThreshold(ms, threshold) <==> m in ms && m.score >= threshold
  {
    if ms != [] {
      FilterKeepsExactly(ms[1..], threshold);
      assert ms == [ms[0]] + ms[1..];
    }
  }

  /** The filter keeps the index's order: it distributes over concatenation. */
  lemma {:induction false} FilterKeepsOrder(a: seq<Match>, b: seq<Match>, threshold: real)
    ensures FilterByThreshold(a + b, threshold) == FilterByThreshold(a, threshold) + FilterByThreshold(b, threshold)
  {
    if a == [] {
      assert a + b == b;
    } else {
      var h := if a[0].score >= threshold then [a[0]] else [];
      FilterKeepsOrder(a[1..], b, threshold);
      assert FilterByThreshold(a + b, threshold) == h + FilterByThreshold(a[1..] + b, threshold) by {
        assert (a + b)[1..] == a[1..] + b;
        assert (a + b)[0] == a[0];
      }
      AppendAssoc(h, FilterByThreshold(a[1..], threshold), FilterByThreshold(b, threshold));
    }
  }

  /** Raising the threshold filters the earlier result further. */
  lemma {:induction false} HigherThresholdFiltersFurther(ms: seq<Match>, t1: real, t2: real)
    requires t1 <= t2
    ensures FilterByThreshold(ms, t2) == FilterByThreshold(FilterByThreshold(ms, t1), t2)
  {
    if ms != [] {
      HigherThresholdFiltersFurther(ms[1..], t1, t2);
      var head := if ms[0].score >= t1 then [ms[0]] else [];
      FilterKeepsOrder(head, FilterByThreshold(ms[1..], t1), t2);
      if ms[0].score >= t1 {
        assert head[1..] == [];
      }
    }
  }

  /** The dict `query` returns. */
  datatype QueryResult = QueryResult(matches: seq<Match>, totalMatches: nat, filteredMatches: nat)

  function QueryResultOf(candidates: seq<Match>, threshold: real): (r: QueryResult)
    ensures r.filteredMatches == |r.matches| <= r.totalMatches == |candidates|
    ensures forall m :: m in r.matches <==> m in candidates && m.score >= threshold
  {
    var kept := FilterByThreshold(candidates, threshold);
    FilterKeepsExactly(candidates, threshold);
    QueryResult(kept, |candidates|, |kept|)
  }

  /**
   * The threshold in force: the value set on the settings page replaces
   * the argument only when the argument is the configured default.
   */
  function EffectiveThreshold(requested: real, default: real, session: Option<real>): (t: real)
    ensures requested != default ==> t == requested
    ensures session.None? ==> t == requested
    ensures requested == default && session.Some? ==> t == session.value
  {
    if requested == default then session.GetOr(default) else requested
  }

  /** One attempt of `query`: embedding the query text and asking the index for candidates. */
  type Searcher = nat -> Option<seq<Match>>

  /**
   * Every candidate that passes the threshold has a "text" entry: the
   * attempt prints the first 100 characters of each kept candidate's
   * `metadata['text']`, which raises `KeyError` for one without it.
   */
  predicate KeptHaveText(candidates: seq<Match>, threshold: real) {
    forall m :: m in candidates && m.score >= threshold ==> "text" in m.metadata
  }

  /** Attempt `k` returns: the index answered and printing the kept candidates did not raise. */
  predicate AttemptSucceeds(search: Searcher, threshold: real, k: nat) {
    search(k).Some? && KeptHaveText(search(k).value, threshold)
  }

  function AttemptOk(search: Searcher, threshold: real): nat -> bool {
    (k: nat) => AttemptSucceeds(search, threshold, k)
  }

  /**
   * `query`: the filtered result of the first of three attempts that
   * succeeds; None when all three fail and it raises.
   */
  function QueryOutcome(search: Searcher, requested: real, default: real, session: Option<real>): (r: Option<QueryResult>)
    ensures var t := EffectiveThreshold(requested, default, session);
      r.Some? <==> exists k :: 0 <= k < MaxRetries && AttemptSucceeds(search, t, k)
    ensures var t := EffectiveThreshold(requested, default, session);
      r.Some? ==> exists k ::
        && 0 <= k < MaxRetries && AttemptSucceeds(search, t, k)
        && (forall j :: 0 <= j < k ==> !AttemptSucceeds(search, t, j))
        && r.value == QueryResultOf(search(k).value, t)
    ensures r.Some? ==> forall m :: m in r.value.matches ==>
      m.score >= EffectiveThreshold(requested, default, session) && "text" in m.metadata
  {
    var t := EffectiveThreshold(requested, default, session);
    var run := Retry(AttemptOk(search, t), EmbedDelay);
    assert forall j :: AttemptOk(search, t)(j) == AttemptSucceeds(search, t, j);
    if run.succeeded then
      var k := run.attempts - 1;
      assert AttemptSucceeds(search, t, k);
      Some(QueryResultOf(search(k).value, t))
    else
      assert forall j :: 0 <= j < MaxRetries ==> !AttemptSucceeds(search, t, j);
      None
  }

  /**
   * Over an index whose every record carries its text, as the upload
   * writes them, an attempt fails only when the index does not answer.
   */
  lemma QueryOverTextRecords(search: Searcher, requested: real, default: real, session: Option<real>)
    requires forall k: nat, m :: search(k).Some? && m in search(k).value ==> "text" in m.metadata
    ensures QueryOutcome(search, requested, default, session).Some? <==>
      exists k :: 0 <= k < MaxRetries && search(k).Some?
  {
    var t := EffectiveThreshold(requested, default, session);
    assert forall k: nat :: AttemptSucceeds(search, t, k) <==> search(k).Some?;
  }

  method Query(search: Searcher, requested: real, default: real, session: Option<real>) returns (r: Option<QueryResult>)
    ensures r == QueryOutcome(search, requested, default, session)
  {
    var threshold := requested;
    if threshold == default {
      threshold := session.GetOr(default);
    }
    var succeeded, attempts, delays := RetryLoop(AttemptOk(search, threshold), EmbedDelay);
    if succeeded {
      var candidates := search(attempts - 1).value;
      var kept := FilterByThreshold(candidates, threshold);
      r := Some(QueryResult(kept, |candidates|, |kept|));
    } else {
      r := None;
    }
  }
}
