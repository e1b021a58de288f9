/**
 * The retrieval-augmented answering service (`LangChainService`): how the
 * retrieved documents become the context of the prompt, how a failure of
 * retrieval becomes an error record, how the conversation history is
 * rebuilt from the chat page, and how it is cut down to a token budget
 * before it is sent.  The vector store, the advanced search service, the
 * chat model and the tokenizer are not modelled; what they return is an
 * input, and the tokenizer is a function `tokens`.
 */
module LangChainService {
  import opened Strings
  import opened CategoryClassifier

  type TokenCounter = string -> nat

  // ---------------------------------------------------------------------
  // Context from the basic search
  // ---------------------------------------------------------------------

  const Ellipsis := "..."
  /** Page contents longer than this many characters are cut. */
  const ContentLimit: nat := 500
  /** String metadata values longer than this many characters are cut. */
  const MetadataLimit: nat := 100

  /** `value[:n] + "..." if len(value) > n else value`. */
  function Shorten(s: string, n: nat): (r: string)
    ensures |s| <= n ==> r == s
    ensures |s| > n ==> |r| == n + 3 && r[..n] == s[..n] && EndsWith(r, Ellipsis)
    ensures |r| <= n + 3
  {
    if |s| > n then
      var r := s[..n] + Ellipsis;
      assert r[..n] == s[..n];
      assert r[|r| - 3..] == Ellipsis;
      r
    else s
  }

  /** A document of the vector store with its similarity score. */
  datatype ScoredDocument = ScoredDocument(pageContent: string, metadata: map<string, Json>, score: real)

  /** The simplified form kept of a retrieved document. */
  datatype SimplifiedDoc = SimplifiedDoc(content: string, metadata: map<string, string>, score: real)

  /** Only string metadata is kept, each value shortened to 100 characters. */
  function SimplifyMetadata(md: map<string, Json>): (r: map<string, string>)
    ensures r.Keys == set k | k in md && md[k].JStr?
    ensures forall k :: k in r ==> r[k] == Shorten(md[k].s, MetadataLimit) && |r[k]| <= MetadataLimit + 3
  {
    map k | k in md && md[k].JStr? :: Shorten(md[k].s, MetadataLimit)
  }

  function Simplify(d: ScoredDocument): SimplifiedDoc {
    SimplifiedDoc(Shorten(d.pageContent, ContentLimit), SimplifyMetadata(d.metadata), d.score)
  }

  function SimplifyAll(docs: seq<ScoredDocument>): (r: seq<SimplifiedDoc>)
    ensures |r| == |docs|
  {
    seq(|docs|, k requires 0 <= k < |docs| => Simplify(docs[k]))
  }

  /** The loop that builds `simplified_docs`. */
  method SimplifyDocuments(docs: seq<ScoredDocument>) returns (simplified: seq<SimplifiedDoc>)
    ensures simplified == SimplifyAll(docs)
  {
    simplified := [];
    for i := 0 to |docs|
      invariant simplified == SimplifyAll(docs[..i])
    {
      var doc := docs[i];
      var metadata := KeepStringMetadata(doc.metadata);
      var content := doc.pageContent;
      if |content| > ContentLimit {
        content := content[..ContentLimit] + Ellipsis;
      }
      assert docs[..i + 1] == docs[..i] + [doc];
      simplified := simplified + [SimplifiedDoc(content, metadata, doc.score)];
    }
    assert docs[..|docs|] == docs;
  }

  /** The inner loop over a document's metadata items. */
  method KeepStringMetadata(md: map<string, Json>) returns (metadata: map<string, string>)
    ensures metadata == SimplifyMetadata(md)
  {
    metadata := map[];
    var keys := md.Keys;
    while keys != {}
      invariant keys <= md.Keys
      invariant metadata.Keys == set k | k in md && k !in keys && md[k].JStr?
      invariant forall k :: k in metadata ==> metadata[k] == Shorten(md[k].s, MetadataLimit)
      decreases |keys|
    {
      var key :| key in keys;
      if md[key].JStr? {
        metadata := metadata[key := Shorten(md[key].s, MetadataLimit)];
      }
      keys := keys - {key};
    }
  }

  /** `[doc for doc in simplified_docs if doc["score"] >= similarity_threshold]`. */
  function KeepScoring(docs: seq<SimplifiedDoc>, threshold: real): (r: seq<SimplifiedDoc>)
    ensures |r| <= |docs|
  {
    if docs == [] then []
    else (if docs[0].score >= threshold then [docs[0]] else []) + KeepScoring(docs[1..], threshold)
  }

  lemma {:induction false} KeepScoringExactly(docs: seq<SimplifiedDoc>, threshold: real)
    ensures forall d :: d in KeepScoring(docs, threshold) <==> d in docs && d.score >= threshold
  {
    if docs != [] {
      KeepScoringExactly(docs[1..], threshold);
      assert docs == [docs[0]] + docs[1..];
    }
  }

  function Contents(docs: seq<SimplifiedDoc>): (r: seq<string>)
    ensures |r| == |docs|
  {
    seq(|docs|, k requires 0 <= k < |docs| => docs[k].content)
  }

  /** The context text: the kept contents joined by "\n", or "" when nothing is kept. */
  function BasicContext(docs: seq<ScoredDocument>, threshold: real): string {
    var kept := KeepScoring(SimplifyAll(docs), threshold);
    if kept != [] then Join(Contents(kept), "\n") else ""
  }

  /**
   * What the basic search contributes: nothing when no document reaches
   * the threshold; otherwise, when no kept content has a line break, the
   * context splits back into exactly the kept contents, each at most 503
   * characters.
   */
  lemma BasicContextLines(docs: seq<ScoredDocument>, threshold: real)
    ensures var kept := KeepScoring(SimplifyAll(docs), threshold);
      kept == [] ==> BasicContext(docs, threshold) == []
    ensures var kept := KeepScoring(SimplifyAll(docs), threshold);
      kept != [] && (forall k :: 0 <= k < |kept| ==> '\n' !in kept[k].content) ==>
        Split(BasicContext(docs, threshold), "\n") == Contents(kept)
        && forall k :: 0 <= k < |kept| ==> |kept[k].content| <= ContentLimit + 3
  {
    var kept := KeepScoring(SimplifyAll(docs), threshold);
    if kept != [] && (forall k :: 0 <= k < |kept| ==> '\n' !in kept[k].content) {
      JoinSplitChar(Contents(kept), '\n');
      KeepScoringExactly(SimplifyAll(docs), threshold);
      forall k | 0 <= k < |kept|
        ensures |kept[k].content| <= ContentLimit + 3
      {
        assert kept[k] in SimplifyAll(docs);
      }
    }
  }

  /** One entry of `search_details` for a kept document. */
  datatype SearchDetail = SearchDetail(score: real, text: string, chunkId: string)

  const UnknownChunkId := "不明"

  /** How many characters of a text a detail shows before the ellipsis. */
  const PreviewLimit := 100

  /** True when `t` is the first `PreviewLimit` characters of `text` (all of a shorter one) followed by "...". */
  predicate IsPreview(t: string, text: string) {
    |t| == (if |text| < PreviewLimit then |text| else PreviewLimit) + |Ellipsis|
    && t[..|t| - |Ellipsis|] <= text
    && EndsWith(t, Ellipsis)
  }

  /** The detail of a kept document: its score, a preview of its content, its chunk id or "不明". */
  function DetailOf(d: SimplifiedDoc): (r: SearchDetail)
    ensures r.score == d.score
    ensures IsPreview(r.text, d.content)
    ensures "chunk_id" in d.metadata ==> r.chunkId == d.metadata["chunk_id"]
    ensures "chunk_id" !in d.metadata ==> r.chunkId == UnknownChunkId
  {
    var t := PyPrefix(d.content, PreviewLimit) + Ellipsis;
    assert t[..|t| - 3] == PyPrefix(d.content, PreviewLimit);
    assert t[|t| - 3..] == Ellipsis;
    SearchDetail(d.score, t, if "chunk_id" in d.metadata then d.metadata["chunk_id"] else UnknownChunkId)
  }

  /** `_get_context_with_basic_search` after the store has answered: context, details, token count. */
  function BasicSearchResult(docs: seq<ScoredDocument>, threshold: real, tokens: TokenCounter): (r: (string, seq<SearchDetail>, nat))
    ensures r.0 == BasicContext(docs, threshold)
    ensures r.2 == tokens(r.0)
    ensures var kept := KeepScoring(SimplifyAll(docs), threshold);
      |r.1| == |kept| <= |docs| && forall k :: 0 <= k < |kept| ==> r.1[k] == DetailOf(kept[k])
  {
    var kept := KeepScoring(SimplifyAll(docs), threshold);
    var context := BasicContext(docs, threshold);
    (context, seq(|kept|, k requires 0 <= k < |kept| => DetailOf(kept[k])), tokens(context))
  }

  // ---------------------------------------------------------------------
  // Context from the advanced search
  // ---------------------------------------------------------------------

  /** A match as the advanced search service returns it. */
  datatype AdvancedMatch = AdvancedMatch(text: Option<string>, score: real, adjustedScore: Option<real>, chunkId: Option<string>)

  function MatchText(m: AdvancedMatch): string {
    m.text.GetOr([])
  }

  function MatchTexts(ms: seq<AdvancedMatch>): (r: seq<string>)
    ensures |r| == |ms|
  {
    seq(|ms|, k requires 0 <= k < |ms| => MatchText(ms[k]))
  }

  /** The detail of a match: the adjusted score when there is one, the text cut to 100 characters. */
  function AdvancedDetail(m: AdvancedMatch): (r: SearchDetail)
    ensures r.score == if m.adjustedScore.Some? then m.adjustedScore.value else m.score
    ensures IsPreview(r.text, MatchText(m))
    ensures r.chunkId == if m.chunkId.Some? then m.chunkId.value else UnknownChunkId
  {
    var t := PyPrefix(MatchText(m), PreviewLimit) + Ellipsis;
    assert t[..|t| - 3] == PyPrefix(MatchText(m), PreviewLimit);
    assert t[|t| - 3..] == Ellipsis;
    SearchDetail(m.adjustedScore.GetOr(m.score), t, m.chunkId.GetOr(UnknownChunkId))
  }

  /** `_get_context_with_advanced_search` after the search service has answered. */
  function AdvancedSearchResult(ms: seq<AdvancedMatch>, tokens: TokenCounter): (r: (string, seq<SearchDetail>, nat))
    ensures ms == [] ==> r == ("", [], 0)
    ensures ms != [] ==> r.0 == Join(MatchTexts(ms), "\n") && r.2 == tokens(r.0)
    ensures ms != [] ==> |r.1| == |ms| && forall k :: 0 <= k < |ms| ==> r.1[k] == AdvancedDetail(ms[k])
  {
    if ms == [] then ("", [], 0)
    else
      var context := Join(MatchTexts(ms), "\n");
      (context, seq(|ms|, k requires 0 <= k < |ms| => AdvancedDetail(ms[k])), tokens(context))
  }

  /** Every match contributes one line, its text (absent text reads as ""), in order. */
  lemma AdvancedContextLines(ms: seq<AdvancedMatch>, tokens: TokenCounter)
    requires ms != [] && forall k :: 0 <= k < |ms| ==> '\n' !in MatchText(ms[k])
    ensures Split(AdvancedSearchResult(ms, tokens).0, "\n") == MatchTexts(ms)
  {
    JoinSplitChar(MatchTexts(ms), '\n');
  }

  // ---------------------------------------------------------------------
  // get_relevant_context: failures become an error record
  // ---------------------------------------------------------------------

  /** An entry of the details list: a search detail, or the record of a failed retrieval. */
  datatype Detail =
    | Found(detail: SearchDetail)
    | ErrorRecord(message: string, errorType: string, action: Option<string>)

  const QuotaMarker := "insufficient_quota"
  const QuotaErrorType := "API Quota Error"
  const UnknownErrorType := "Unknown Error"
  const QuotaMessage := "API quota has been exceeded"
  const QuotaAction := "Please update your API key in Streamlit Cloud settings"

  /** What `get_relevant_context` returns when retrieval raised with `message`. */
  function ErrorContext(message: string): (r: (string, seq<Detail>, nat))
    ensures r.0 == [] && r.2 == 0 && |r.1| == 1 && r.1[0].ErrorRecord?
    ensures r.1[0].errorType == QuotaErrorType <==> Contains(message, QuotaMarker)
    ensures !Contains(message, QuotaMarker) ==>
      r.1[0].message == message && r.1[0].errorType == UnknownErrorType && r.1[0].action.None?
    ensures Contains(message, QuotaMarker) ==>
      r.1[0].message == QuotaMessage && r.1[0].action == Some(QuotaAction)
  {
    if Contains(message, QuotaMarker) then
      ("", [ErrorRecord(QuotaMessage, QuotaErrorType, Some(QuotaAction))], 0)
    else ("", [ErrorRecord(message, UnknownErrorType, None)], 0)
  }

  /** `get_relevant_context`: the search mode's result, or the error record when it raised. */
  function RelevantContext(outcome: Result<(string, seq<SearchDetail>, nat), string>): (r: (string, seq<Detail>, nat))
    ensures outcome.Err? ==> r == ErrorContext(outcome.error)
    ensures outcome.Ok? ==> r.0 == outcome.value.0 && r.2 == outcome.value.2 && |r.1| == |outcome.value.1|
    ensures outcome.Ok? ==> forall k :: 0 <= k < |r.1| ==> r.1[k] == Found(outcome.value.1[k])
  {
    match outcome
    case Err(message) => ErrorContext(message)
    case Ok(v) => (v.0, seq(|v.1|, k requires 0 <= k < |v.1| => Found(v.1[k])), v.2)
  }

  // ---------------------------------------------------------------------
  // get_response: the prompt context
  // ---------------------------------------------------------------------

  const ImportantMark := "【重要】"
  const NoContextInstruction := ImportantMark + "参照文脈に情報がありません。この場合、絶対に推測や一般的な知識で回答せず、情報がないことを明確に伝えてください。"

  /** A blank context is replaced by the instruction to say that nothing is known. */
  function PromptContext(context: string): (r: string)
    ensures AllSpace(context) ==> r == NoContextInstruction
    ensures !AllSpace(context) ==> r == context
    ensures Strip(r) != []
  {
    assert NoContextInstruction[0] == ImportantMark[0] == '【';
    if Strip(context) == [] then NoContextInstruction else context
  }

  const FailurePrefix := "エラーが発生しました："
  const QuotaReply := "申し訳ありません。APIの利用制限に達しました。\n\n"
    + "以下の手順で対応をお願いします：\n"
    + "1. OpenAIのアカウント設定を確認してください\n"
    + "2. 新しいAPIキーを取得してください\n"
    + "3. Streamlit Cloudの設定で新しいAPIキーを更新してください\n\n"
    + "詳細はこちらで確認できます：\n"
    + "https://platform.openai.com/account/usage"

  /** What `get_response` returns when answering raised with `message`: the reply and its error record. */
  function ResponseFailure(message: string): (r: (string, Detail))
    ensures r.1.ErrorRecord? && r.1.message == message && r.1.action.None?
    ensures r.1.errorType == QuotaErrorType <==> Contains(message, QuotaMarker)
    ensures !Contains(message, QuotaMarker) ==> r.1.errorType == UnknownErrorType
    ensures Contains(message, QuotaMarker) ==> r.0 == QuotaReply
    ensures !Contains(message, QuotaMarker) ==> r.0 == FailurePrefix + message && EndsWith(r.0, message)
  {
    if Contains(message, QuotaMarker) then (QuotaReply, ErrorRecord(message, QuotaErrorType, None))
    else
      var reply := FailurePrefix + message;
      assert reply[|reply| - |message|..] == message;
      (reply, ErrorRecord(message, UnknownErrorType, None))
  }

  /** Retrieval and answering classify a failure alike; only the retrieval record rewrites a quota message. */
  lemma FailuresClassifiedAlike(message: string)
    ensures ErrorContext(message).1[0].errorType == ResponseFailure(message).1.errorType
    ensures ErrorContext(message).1[0].message == ResponseFailure(message).1.message <==> !Contains(message, QuotaMarker) || message == QuotaMessage
  {
  }

  // ---------------------------------------------------------------------
  // The conversation history
  // ---------------------------------------------------------------------

  datatype MessageKind = SystemMessage | HumanMessage | AiMessage

  datatype Message = Message(kind: MessageKind, content: string)

  /** The `(role, content)` pairs of the chat page as messages: "human" and "ai" entries only. */
  function HistoryMessages(chatHistory: seq<(string, string)>): (r: seq<Message>)
    ensures |r| <= |chatHistory|
    ensures forall k :: 0 <= k < |r| ==> r[k].kind != SystemMessage
  {
    if chatHistory == [] then []
    else
      var prev := HistoryMessages(chatHistory[..|chatHistory| - 1]);
      var (role, content) := chatHistory[|chatHistory| - 1];
      if role == "human" then prev + [Message(HumanMessage, content)]
      else if role == "ai" then prev + [Message(AiMessage, content)]
      else prev
  }

  /** The rebuild keeps the order of the page: it distributes over concatenation. */
  lemma {:induction false} HistoryMessagesAppend(a: seq<(string, string)>, b: seq<(string, string)>)
    ensures HistoryMessages(a + b) == HistoryMessages(a) + HistoryMessages(b)
    decreases |b|
  {
    if b == [] {
      assert a + b == a;
    } else {
      var init := b[..|b| - 1];
      HistoryMessagesAppend(a, init);
      assert (a + b)[..|a + b| - 1] == a + init;
      assert (a + b)[|a + b| - 1] == b[|b| - 1];
    }
  }

  /**
   * Every "human" and "ai" entry of the page becomes a message of its kind,
   * and every message comes from such an entry; when the page has no other
   * role, nothing is dropped.
   */
  lemma {:induction false} HistoryMessagesKeepsEntries(chatHistory: seq<(string, string)>)
    ensures var r := HistoryMessages(chatHistory);
      && (forall e :: e in chatHistory && e.0 == "human" ==> Message(HumanMessage, e.1) in r)
      && (forall e :: e in chatHistory && e.0 == "ai" ==> Message(AiMessage, e.1) in r)
      && (forall m :: m in r ==>
            (m.kind == HumanMessage && ("human", m.content) in chatHistory)
            || (m.kind == AiMessage && ("ai", m.content) in chatHistory))
      && ((forall k :: 0 <= k < |chatHistory| ==> chatHistory[k].0 in {"human", "ai"}) ==> |r| == |chatHistory|)
  {
    if chatHistory != [] {
      var init := chatHistory[..|chatHistory| - 1];
      HistoryMessagesKeepsEntries(init);
      assert chatHistory == init + [chatHistory[|chatHistory| - 1]];
      assert forall k :: 0 <= k < |init| ==> init[k] == chatHistory[k];
    }
  }

  /** Entries of any other role are dropped. */
  lemma OtherRolesDropped(role: string, content: string)
    requires role != "human" && role != "ai"
    ensures HistoryMessages([(role, content)]) == []
  {
    assert [(role, content)][..0] == [];
  }

  function Tokens(tokens: TokenCounter, m: Message): nat {
    tokens(m.content)
  }

  function Total(tokens: TokenCounter, ms: seq<Message>): nat {
    if ms == [] then 0 else Tokens(tokens, ms[0]) + Total(tokens, ms[1..])
  }

  lemma {:induction false} TotalAppend(tokens: TokenCounter, a: seq<Message>, b: seq<Message>)
    ensures Total(tokens, a + b) == Total(tokens, a) + Total(tokens, b)
  {
    if a == [] {
      assert a + b == b;
    } else {
      TotalAppend(tokens, a[1..], b);
      assert (a + b)[1..] == a[1..] + b;
    }
  }

  function Reverse(s: seq<Message>): (r: seq<Message>)
    ensures |r| == |s|
  {
    if s == [] then [] else Reverse(s[1..]) + [s[0]]
  }

  lemma {:induction false} ReverseIndex(s: seq<Message>)
    ensures forall k :: 0 <= k < |s| ==> Reverse(s)[k] == s[|s| - 1 - k]
  {
    if s != [] {
      ReverseIndex(s[1..]);
    }
  }

  lemma {:induction false} ReverseSnoc(s: seq<Message>, m: Message)
    ensures Reverse(s + [m]) == [m] + Reverse(s)
  {
    if s == [] {
      assert Reverse([m]) == Reverse([m][1..]) + [m];
    } else {
      ReverseSnoc(s[1..], m);
      assert (s + [m])[1..] == s[1..] + [m];
    }
  }

  lemma {:induction false} ReverseKeeps(tokens: TokenCounter, s: seq<Message>)
    ensures Total(tokens, Reverse(s)) == Total(tokens, s)
    ensures multiset(Reverse(s)) == multiset(s)
  {
    if s != [] {
      ReverseKeeps(tokens, s[1..]);
      TotalAppend(tokens, Reverse(s[1..]), [s[0]]);
      assert s == [s[0]] + s[1..];
    }
  }

  /** The system messages, in order. */
  function SystemMessages(ms: seq<Message>): (r: seq<Message>)
    ensures forall m :: m in r <==> m in ms && m.kind == SystemMessage
  {
    if ms == [] then []
    else
      var prev := SystemMessages(ms[..|ms| - 1]);
      assert ms == ms[..|ms| - 1] + [ms[|ms| - 1]];
      if ms[|ms| - 1].kind == SystemMessage then prev + [ms[|ms| - 1]] else prev
  }

  /** The other messages, in order. */
  function OtherMessages(ms: seq<Message>): (r: seq<Message>)
    ensures forall m :: m in r <==> m in ms && m.kind != SystemMessage
  {
    if ms == [] then []
    else
      var prev := OtherMessages(ms[..|ms| - 1]);
      assert ms == ms[..|ms| - 1] + [ms[|ms| - 1]];
      if ms[|ms| - 1].kind != SystemMessage then prev + [ms[|ms| - 1]] else prev
  }

  lemma {:induction false} PartitionKeepsAll(ms: seq<Message>)
    ensures multiset(SystemMessages(ms)) + multiset(OtherMessages(ms)) == multiset(ms)
  {
    if ms != [] {
      PartitionKeepsAll(ms[..|ms| - 1]);
      assert ms == ms[..|ms| - 1] + [ms[|ms| - 1]];
    }
  }

  predicate SortedByTokens(tokens: TokenCounter, s: seq<Message>) {
    forall i, j :: 0 <= i < j < |s| ==> Tokens(tokens, s[i]) <= Tokens(tokens, s[j])
  }

  lemma ConsSorted(tokens: TokenCounter, x: Message, s: seq<Message>)
    requires SortedByTokens(tokens, s)
    requires s != [] ==> Tokens(tokens, x) <= Tokens(tokens, s[0])
    ensures SortedByTokens(tokens, [x] + s)
  {
    var t := [x] + s;
    forall i, j | 0 <= i < j < |t|
      ensures Tokens(tokens, t[i]) <= Tokens(tokens, t[j])
    {
      if i == 0 && j > 1 {
        assert Tokens(tokens, s[0]) <= Tokens(tokens, s[j - 1]);
      }
    }
  }

  /** Inserts `m` after every message with at most its token count. */
  function Insert(tokens: TokenCounter, m: Message, s: seq<Message>): (r: seq<Message>)
    requires SortedByTokens(tokens, s)
    ensures SortedByTokens(tokens, r)
    ensures multiset(r) == multiset(s) + multiset{m}
    ensures r != [] && (r[0] == m || (s != [] && r[0] == s[0]))
  {
    if s == [] then [m]
    else if Tokens(tokens, m) < Tokens(tokens, s[0]) then
      ConsSorted(tokens, m, s);
      [m] + s
    else
      SortedTail(tokens, s);
      var rest := Insert(tokens, m, s[1..]);
      assert s == [s[0]] + s[1..];
      assert multiset([s[0]] + rest) == multiset{s[0]} + multiset(rest);
      assert |s| > 1 ==> Tokens(tokens, s[0]) <= Tokens(tokens, s[1]);
      ConsSorted(tokens, s[0], rest);
      [s[0]] + rest
  }

  lemma SortedTail(tokens: TokenCounter, s: seq<Message>)
    requires s != [] && SortedByTokens(tokens, s)
    ensures SortedByTokens(tokens, s[1..])
  {
    forall i, j | 0 <= i < j < |s| - 1
      ensures Tokens(tokens, s[1..][i]) <= Tokens(tokens, s[1..][j])
    {
      assert s[1..][i] == s[i + 1] && s[1..][j] == s[j + 1];
    }
  }

  /** `other_messages.sort(key=count_tokens)`: a stable sort by token count. */
  function SortByTokens(tokens: TokenCounter, s: seq<Message>): (r: seq<Message>)
    ensures SortedByTokens(tokens, r)
    ensures multiset(r) == multiset(s)
  {
    if s == [] then []
    else
      assert s == s[..|s| - 1] + [s[|s| - 1]];
      Insert(tokens, s[|s| - 1], SortByTokens(tokens, s[..|s| - 1]))
  }

  /**
   * The greedy fill: take messages from the front of `s` while each fits
   * in what is left of the budget, and stop at the first that does not.
   */
  function Fill(tokens: TokenCounter, s: seq<Message>, remaining: int): (r: seq<Message>)
    ensures r <= s
  {
    if s == [] || Tokens(tokens, s[0]) > remaining then []
    else [s[0]] + Fill(tokens, s[1..], remaining - Tokens(tokens, s[0]))
  }

  lemma {:induction false} FillWithinBudget(tokens: TokenCounter, s: seq<Message>, remaining: int)
    ensures remaining >= 0 ==> Total(tokens, Fill(tokens, s, remaining)) <= remaining
    ensures remaining < 0 ==> Fill(tokens, s, remaining) == []
    ensures |Fill(tokens, s, remaining)| < |s| ==>
      Tokens(tokens, s[|Fill(tokens, s, remaining)|]) > remaining - Total(tokens, Fill(tokens, s, remaining))
  {
    if s != [] && Tokens(tokens, s[0]) <= remaining {
      FillWithinBudget(tokens, s[1..], remaining - Tokens(tokens, s[0]));
    }
  }

  /** The `max_tokens` that `get_response` optimises with. */
  const DefaultMaxTokens := 10000

  /** The budget the history may use: `max_tokens` less the 4000 reserved for prompt and context. */
  function Available(maxTokens: int): int {
    maxTokens - 4000
  }

  /** The messages kept unconditionally: the system messages and the last other message. */
  function Important(ms: seq<Message>): (r: seq<Message>)
    ensures forall m :: m in ms && m.kind == SystemMessage ==> m in r
    ensures OtherMessages(ms) != [] ==> OtherMessages(ms)[|OtherMessages(ms)| - 1] in r
  {
    var others := OtherMessages(ms);
    if others == [] then SystemMessages(ms) else SystemMessages(ms) + [others[|others| - 1]]
  }

  /** The other messages but the last: those that compete for the rest of the budget. */
  function Rest(ms: seq<Message>): seq<Message> {
    var others := OtherMessages(ms);
    if others == [] then [] else others[..|others| - 1]
  }

  /** The competing messages, fewest tokens first. */
  function Candidates(tokens: TokenCounter, ms: seq<Message>): seq<Message> {
    SortByTokens(tokens, Rest(ms))
  }

  /** The important and the competing messages are the history, split in two. */
  lemma ImportantAndRest(ms: seq<Message>)
    ensures multiset(Important(ms)) + multiset(Rest(ms)) == multiset(ms)
  {
    PartitionKeepsAll(ms);
    var others := OtherMessages(ms);
    if others != [] {
      var last := others[|others| - 1];
      assert others == Rest(ms) + [last];
      assert multiset(others) == multiset(Rest(ms)) + multiset{last};
    }
  }

  lemma PrefixMultiset(a: seq<Message>, b: seq<Message>)
    requires a <= b
    ensures multiset(a) <= multiset(b)
  {
    assert b == a + b[|a|..];
  }

  function Added(tokens: TokenCounter, ms: seq<Message>, maxTokens: int): seq<Message> {
    Fill(tokens, Candidates(tokens, ms), Available(maxTokens) - Total(tokens, Important(ms)))
  }

  /** The history `optimize_chat_history` leaves behind. */
  function OptimizedHistory(tokens: TokenCounter, ms: seq<Message>, maxTokens: int): seq<Message> {
    if ms == [] || Total(tokens, ms) <= Available(maxTokens) then ms
    else Reverse(Added(tokens, ms, maxTokens)) + Important(ms)
  }

  /** Within budget, the history is left alone. */
  lemma WithinBudgetUnchanged(tokens: TokenCounter, ms: seq<Message>, maxTokens: int)
    requires Total(tokens, ms) <= maxTokens - 4000
    ensures OptimizedHistory(tokens, ms, maxTokens) == ms
  {
  }

  /**
   * The optimised history is drawn from the input (no message is invented
   * or duplicated), keeps every system message and the last other message.
   */
  lemma OptimizedKeepsImportant(tokens: TokenCounter, ms: seq<Message>, maxTokens: int)
    ensures multiset(OptimizedHistory(tokens, ms, maxTokens)) <= multiset(ms)
    ensures forall m :: m in ms && m.kind == SystemMessage ==> m in OptimizedHistory(tokens, ms, maxTokens)
    ensures OtherMessages(ms) != [] ==> OtherMessages(ms)[|OtherMessages(ms)| - 1] in OptimizedHistory(tokens, ms, maxTokens)
  {
    if ms != [] && Total(tokens, ms) > Available(maxTokens) {
      var added := Added(tokens, ms, maxTokens);
      var r := Reverse(added) + Important(ms);
      assert OptimizedHistory(tokens, ms, maxTokens) == r;
      ImportantAndRest(ms);
      ReverseKeeps(tokens, added);
      PrefixMultiset(added, Candidates(tokens, ms));
      assert multiset(added) <= multiset(Rest(ms));
      assert multiset(r) == multiset(added) + multiset(Important(ms));
      assert forall m :: m in Important(ms) ==> m in r;
    }
  }

  /**
   * The optimised total stays within the budget, unless the system messages
   * and the last message alone exceed it; then nothing else is added.
   */
  lemma OptimizedTotal(tokens: TokenCounter, ms: seq<Message>, maxTokens: int)
    ensures var r := OptimizedHistory(tokens, ms, maxTokens);
      var important := Total(tokens, Important(ms));
      ms != [] && Total(tokens, ms) > Available(maxTokens) ==>
        (important <= Available(maxTokens) ==> Total(tokens, r) <= Available(maxTokens))
        && (important > Available(maxTokens) ==> r == Important(ms))
  {
    if ms != [] && Total(tokens, ms) > Available(maxTokens) {
      var remaining := Available(maxTokens) - Total(tokens, Important(ms));
      var added := Added(tokens, ms, maxTokens);
      var r := Reverse(added) + Important(ms);
      assert OptimizedHistory(tokens, ms, maxTokens) == r;
      FillWithinBudget(tokens, Candidates(tokens, ms), remaining);
      ReverseKeeps(tokens, added);
      TotalAppend(tokens, Reverse(added), Important(ms));
      assert Total(tokens, r) == Total(tokens, added) + Total(tokens, Important(ms));
      if remaining < 0 {
        assert added == [] && Reverse(added) == [];
        assert r == Important(ms);
      }
    }
  }

  /**
   * The fill is greedy in ascending token order: it takes a prefix of the
   * sorted candidates and stops at the first that does not fit; the added
   * messages therefore stand in descending token order at the front.
   */
  lemma OptimizedFillIsGreedy(tokens: TokenCounter, ms: seq<Message>, maxTokens: int)
    ensures var sorted := Candidates(tokens, ms);
      var added := Added(tokens, ms, maxTokens);
      var remaining := Available(maxTokens) - Total(tokens, Important(ms));
      added <= sorted
      && (|added| < |sorted| ==> Tokens(tokens, sorted[|added|]) > remaining - Total(tokens, added))
      && forall i, j :: 0 <= i < j < |added| ==> Tokens(tokens, Reverse(added)[i]) >= Tokens(tokens, Reverse(added)[j])
  {
    var sorted := Candidates(tokens, ms);
    var added := Added(tokens, ms, maxTokens);
    FillWithinBudget(tokens, sorted, Available(maxTokens) - Total(tokens, Important(ms)));
    ReverseIndex(added);
    assert forall k :: 0 <= k < |added| ==> added[k] == sorted[k];
  }

  /** The conversation memory (`ChatMessageHistory`) of the service. */
  class ChatMessageHistory {
    var messages: seq<Message>

    constructor ()
      ensures messages == []
    {
      messages := [];
    }

    method AddUserMessage(content: string)
      modifies this
      ensures messages == old(messages) + [Message(HumanMessage, content)]
    {
      messages := messages + [Message(HumanMessage, content)];
    }

    method AddAiMessage(content: string)
      modifies this
      ensures messages == old(messages) + [Message(AiMessage, content)]
    {
      messages := messages + [Message(AiMessage, content)];
    }

    /** `get_response`: a non-empty history from the chat page replaces the memory. */
    method RebuildFrom(chatHistory: seq<(string, string)>)
      modifies this
      ensures chatHistory == [] ==> messages == old(messages)
      ensures chatHistory != [] ==> messages == HistoryMessages(chatHistory)
    {
      if chatHistory != [] {
        messages := [];
        for i := 0 to |chatHistory|
          invariant messages == HistoryMessages(chatHistory[..i])
        {
          var (role, content) := chatHistory[i];
          assert chatHistory[..i + 1][..i] == chatHistory[..i];
          if role == "human" {
            AddUserMessage(content);
          } else if role == "ai" {
            AddAiMessage(content);
          }
        }
        assert chatHistory[..|chatHistory|] == chatHistory;
      }
    }

    /** `get_response` before the model is called: rebuild from the page, then cut to the default budget. */
    method PrepareHistory(chatHistory: seq<(string, string)>, tokens: TokenCounter)
      modifies this
      ensures messages == OptimizedHistory(tokens, if chatHistory == [] then old(messages) else HistoryMessages(chatHistory), DefaultMaxTokens)
    {
      RebuildFrom(chatHistory);
      OptimizeChatHistory(tokens, DefaultMaxTokens);
    }

    /** `get_response` after the model answered: the exchange is remembered. */
    method RecordExchange(query: string, reply: string)
      modifies this
      ensures messages == old(messages) + [Message(HumanMessage, query), Message(AiMessage, reply)]
    {
      AddUserMessage(query);
      AddAiMessage(reply);
    }

    /** `optimize_chat_history(max_tokens)`: the history is cut down to the budget. */
    method OptimizeChatHistory(tokens: TokenCounter, maxTokens: int)
      modifies this
      ensures messages == OptimizedHistory(tokens, old(messages), maxTokens)
    {
      var optimized := OptimizeMessages(tokens, messages, maxTokens);
      messages := optimized;
    }
  }

  /** The body of `optimize_chat_history`, on the message list. */
  method OptimizeMessages(tokens: TokenCounter, ms: seq<Message>, maxTokens: int) returns (r: seq<Message>)
    ensures r == OptimizedHistory(tokens, ms, maxTokens)
  {
    if ms == [] {
      return ms;
    }
    var available := maxTokens - 4000;
    if Total(tokens, ms) <= available {
      return ms;
    }
    var important, others := SplitBySystem(ms);
    if others != [] {
      important := important + [others[|others| - 1]];
      others := others[..|others| - 1];
    }
    assert important == Important(ms) && others == Rest(ms);
    var remaining := available - Total(tokens, important);
    var sorted := SortByTokens(tokens, others);
    assert Fill(tokens, sorted, remaining) == Added(tokens, ms, maxTokens);
    r := FillFront(tokens, sorted, remaining, important);
  }

  /** The loop that separates the system messages from the others. */
  method SplitBySystem(ms: seq<Message>) returns (system: seq<Message>, others: seq<Message>)
    ensures system == SystemMessages(ms) && others == OtherMessages(ms)
  {
    system, others := [], [];
    for i := 0 to |ms|
      invariant system == SystemMessages(ms[..i]) && others == OtherMessages(ms[..i])
    {
      assert ms[..i + 1][..i] == ms[..i];
      if ms[i].kind == SystemMessage {
        system := system + [ms[i]];
      } else {
        others := others + [ms[i]];
      }
    }
    assert ms[..|ms|] == ms;
  }

  /** The greedy loop: each message that fits goes to the front, the first that does not ends it. */
  method FillFront(tokens: TokenCounter, sorted: seq<Message>, remaining: int, important: seq<Message>) returns (r: seq<Message>)
    ensures r == Reverse(Fill(tokens, sorted, remaining)) + important
  {
    r := important;
    var left := remaining;
    ghost var added: seq<Message> := [];
    var i := 0;
    while i < |sorted|
      invariant 0 <= i <= |sorted|
      invariant Fill(tokens, sorted, remaining) == added + Fill(tokens, sorted[i..], left)
      invariant r == Reverse(added) + important
      decreases |sorted| - i
    {
      var t := tokens(sorted[i].content);
      FillAt(tokens, sorted, i, left);
      if t > left {
        assert added + [] == added;
        break;
      }
      FillFrontStep(added, sorted[i], Fill(tokens, sorted[i + 1..], left - t), important);
      r := [sorted[i]] + r;
      added := added + [sorted[i]];
      left := left - t;
      i := i + 1;
    }
    FillAt(tokens, sorted, i, left);
    assert added + [] == added;
  }

  /** The fill at position `i`: empty at the end or when the message there does not fit. */
  lemma FillAt(tokens: TokenCounter, s: seq<Message>, i: nat, left: int)
    requires i <= |s|
    ensures i == |s| ==> Fill(tokens, s[i..], left) == []
    ensures i < |s| && Tokens(tokens, s[i]) > left ==> Fill(tokens, s[i..], left) == []
    ensures i < |s| && Tokens(tokens, s[i]) <= left ==>
      Fill(tokens, s[i..], left) == [s[i]] + Fill(tokens, s[i + 1..], left - Tokens(tokens, s[i]))
  {
    if i < |s| {
      assert s[i..][1..] == s[i + 1..];
    }
  }

  /** Taking message `m` keeps the fill's accounting and puts `m` in front. */
  lemma FillFrontStep(added: seq<Message>, m: Message, tail: seq<Message>, important: seq<Message>)
    ensures added + ([m] + tail) == (added + [m]) + tail
    ensures [m] + (Reverse(added) + important) == Reverse(added + [m]) + important
  {
    ReverseSnoc(added, m);
  }

}
