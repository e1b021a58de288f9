/**
 * The category classifier: an LLM is asked to place a text in a two-level
 * taxonomy (main category -> sub categories) and to answer with a JSON
 * object.  Modelled here: the taxonomy getters, the rendering of the
 * taxonomy into the prompt, the extraction of the JSON text from the reply,
 * the validation of the parsed object against the taxonomy, the fallback
 * record on any failure, and the batch classification of chunks.
 * The language model and `json.loads` are oracles passed in as functions.
 */
module CategoryClassifier {
  import opened Strings

  /** A value as `json.loads` returns it. */
  datatype Json =
    | JStr(s: string)
    | JInt(i: int)
    | JNum(n: real)
    | JBool(b: bool)
    | JNull
    | JArray(items: seq<Json>)
    | JObject(fields: map<string, Json>)

  /** The ordered "中カテゴリ" mapping: main category -> its sub categories. */
  type Taxonomy = seq<(string, seq<string>)>

  /** Python dict keys are unique. */
  predicate DistinctKeys(t: Taxonomy) {
    forall i, j :: 0 <= i < j < |t| ==> t[i].0 != t[j].0
  }

  /** `categories.get(main)`: the sub categories of the first entry named `main`. */
  function Lookup(t: Taxonomy, main: string): Option<seq<string>> {
    if t == [] then None
    else if t[0].0 == main then Some(t[0].1)
    else Lookup(t[1..], main)
  }

  /** `get_main_categories`: the keys of the taxonomy, in order. */
  function GetMainCategories(t: Taxonomy): (r: seq<string>)
    ensures |r| == |t|
    ensures forall i :: 0 <= i < |t| ==> r[i] == t[i].0
  {
    if t == [] then [] else [t[0].0] + GetMainCategories(t[1..])
  }

  /** `get_sub_categories`: the sub categories of `main`, or [] for an unknown key. */
  function GetSubCategories(t: Taxonomy, main: string): (r: seq<string>)
    ensures main !in GetMainCategories(t) ==> r == []
  {
    LookupFindsKeys(t, main);
    Lookup(t, main).GetOr([])
  }

  lemma {:induction false} LookupFindsKeys(t: Taxonomy, main: string)
    ensures Lookup(t, main).Some? <==> main in GetMainCategories(t)
  {
    if t != [] {
      LookupFindsKeys(t[1..], main);
      assert GetMainCategories(t) == [t[0].0] + GetMainCategories(t[1..]);
    }
  }

  /** With distinct keys, the sub categories of the i-th main category are its own. */
  lemma {:induction false} LookupAt(t: Taxonomy, i: nat)
    requires DistinctKeys(t) && i < |t|
    ensures GetSubCategories(t, t[i].0) == t[i].1
  {
    if i > 0 {
      LookupAt(t[1..], i - 1);
    }
  }

  // ---------------------------------------------------------------------
  // Rendering of the taxonomy into the prompt

  function SubCategoryLines(subs: seq<string>): (r: seq<string>)
    ensures |r| == |subs|
  {
    seq(|subs|, k requires 0 <= k < |subs| => "    - " + subs[k])
  }

  /** The lines emitted for one main category. */
  function CategoryBlock(main: string, subs: seq<string>): seq<string> {
    ["大カテゴリ: " + main, "  中カテゴリ:"] + SubCategoryLines(subs) + [""]
  }

  /** All lines of `_prepare_category_info`, before they are joined. */
  function CategoryInfoLines(t: Taxonomy): seq<string> {
    if t == [] then [] else CategoryInfoLines(t[..|t| - 1]) + CategoryBlock(t[|t| - 1].0, t[|t| - 1].1)
  }

  function LineCount(t: Taxonomy): nat {
    if t == [] then 0 else LineCount(t[..|t| - 1]) + |t[|t| - 1].1| + 3
  }

  /** Every main category contributes its heading, its sub-heading, one line per sub category and a blank line. */
  lemma {:induction false} CategoryInfoLineCount(t: Taxonomy)
    ensures |CategoryInfoLines(t)| == LineCount(t)
  {
    if t != [] {
      CategoryInfoLineCount(t[..|t| - 1]);
    }
  }

  /** Every main category and every one of its sub categories is announced in the prompt. */
  lemma {:induction false} CategoryInfoMentions(t: Taxonomy, i: nat, k: nat)
    requires i < |t| && k < |t[i].1|
    ensures "大カテゴリ: " + t[i].0 in CategoryInfoLines(t)
    ensures "    - " + t[i].1[k] in CategoryInfoLines(t)
  {
    var lines := CategoryInfoLines(t);
    if i == |t| - 1 {
      var b := CategoryBlock(t[i].0, t[i].1);
      assert b[0] == "大カテゴリ: " + t[i].0;
      assert b[2 + k] == "    - " + t[i].1[k];
      assert lines == CategoryInfoLines(t[..|t| - 1]) + b;
      assert lines[|lines| - |b|] == b[0];
      assert lines[|lines| - |b| + 2 + k] == b[2 + k];
    } else {
      var front := t[..|t| - 1];
      CategoryInfoMentions(front, i, k);
      assert front[i] == t[i];
      assert lines == CategoryInfoLines(front) + CategoryBlock(t[|t| - 1].0, t[|t| - 1].1);
    }
  }

  /** `_prepare_category_info`: builds the list of lines in a loop and joins them with newlines. */
  method PrepareCategoryInfo(t: Taxonomy) returns (r: string)
    ensures r == Join(CategoryInfoLines(t), "\n")
  {
    var categoryInfo: seq<string> := [];
    var i := 0;
    while i < |t|
      invariant 0 <= i <= |t|
      invariant categoryInfo == CategoryInfoLines(t[..i])
    {
      var (mainCat, subCats) := t[i];
      categoryInfo := categoryInfo + ["大カテゴリ: " + mainCat];
      categoryInfo := categoryInfo + ["  中カテゴリ:"];
      var k := 0;
      while k < |subCats|
        invariant 0 <= k <= |subCats|
        invariant categoryInfo == CategoryInfoLines(t[..i]) + ["大カテゴリ: " + mainCat, "  中カテゴリ:"] + SubCategoryLines(subCats[..k])
      {
        assert SubCategoryLines(subCats[..k + 1]) == SubCategoryLines(subCats[..k]) + ["    - " + subCats[k]];
        categoryInfo := categoryInfo + ["    - " + subCats[k]];
        k := k + 1;
      }
      categoryInfo := categoryInfo + [""];
      assert subCats[..k] == subCats;
      assert t[..i + 1][..i] == t[..i];
      i := i + 1;
    }
    assert t[..i] == t;
    r := Join(categoryInfo, "\n");
  }

  // ---------------------------------------------------------------------
  // JSON extraction

  const NoJsonMessage := "JSONが見つかりませんでした"

  /** `lo` is the first '{' of `text` and `hi - 1` its last '}'. */
  predicate JsonBounds(text: string, lo: nat, hi: nat) {
    && lo < |text| && text[lo] == '{' && '{' !in text[..lo]
    && 0 < hi <= |text| && text[hi - 1] == '}' && '}' !in text[hi..]
  }

  /**
   * `_extract_json_from_response` up to `json.loads`: the slice from the first
   * '{' through the last '}'.  Python slicing yields "" when the last '}'
   * comes before the first '{'.
   */
  function ExtractJsonText(text: string): (r: Result<string, string>)
    ensures r.Err? <==> '{' !in text || '}' !in text
    ensures r.Err? ==> r.error == NoJsonMessage
    ensures r.Ok? ==> exists lo: nat, hi: nat :: JsonBounds(text, lo, hi) && r.value == (if lo < hi then text[lo..hi] else [])
  {
    var start := IndexOfChar(text, '{');
    var last := LastIndexOfChar(text, '}');
    if start.None? || last.None? then Err(NoJsonMessage)
    else
      var lo := start.value;
      var hi := last.value + 1;
      assert JsonBounds(text, lo, hi);
      if hi <= lo then Ok([])
      else Ok(text[lo..hi])
  }

  /** A non-empty extraction starts with '{', ends with '}', and has no '{' before it and no '}' after it. */
  lemma ExtractedObjectShape(text: string)
    requires ExtractJsonText(text).Ok? && ExtractJsonText(text).value != []
    ensures var v := ExtractJsonText(text).value;
      v[0] == '{' && v[|v| - 1] == '}'
      && exists i :: 0 <= i <= |text| - |v| && text[i..i + |v|] == v && '{' !in text[..i] && '}' !in text[i + |v|..]
  {
    var lo := IndexOfChar(text, '{').value;
    var hi := LastIndexOfChar(text, '}').value + 1;
    assert JsonBounds(text, lo, hi);
    assert lo < hi && ExtractJsonText(text).value == text[lo..hi];
    BoundedSliceShape(text, lo, hi);
  }

  lemma BoundedSliceShape(text: string, lo: nat, hi: nat)
    requires JsonBounds(text, lo, hi) && lo < hi
    ensures var v := text[lo..hi];
      v[0] == '{' && v[|v| - 1] == '}'
      && exists i :: 0 <= i <= |text| - |v| && text[i..i + |v|] == v && '{' !in text[..i] && '}' !in text[i + |v|..]
  {
    var v := text[lo..hi];
    assert lo + |v| == hi;
    assert 0 <= lo <= |text| - |v| && text[lo..lo + |v|] == v && '{' !in text[..lo] && '}' !in text[lo + |v|..];
  }

  // ---------------------------------------------------------------------
  // Validation

  const RequiredKeys: seq<string> := ["main_category", "sub_category", "confidence", "reasoning"]

  /** `type(j).__name__` of the Python value `json.loads` builds. */
  function PyTypeName(j: Json): string {
    match j
    case JStr(_) => "str"
    case JInt(_) => "int"
    case JNum(_) => "float"
    case JBool(_) => "bool"
    case JNull => "NoneType"
    case JArray(_) => "list"
    case JObject(_) => "dict"
  }

  /** Python's `key in result` for whatever `json.loads` returned; Err is the TypeError's message. */
  function HasKey(result: Json, key: string): Result<bool, string> {
    match result
    case JObject(f) => Ok(key in f)
    case JArray(items) => Ok(JStr(key) in items)
    case JStr(s) => Ok(Contains(s, key))
    case _ => Err("argument of type '" + PyTypeName(result) + "' is not iterable")
  }

  /** The loop over the required keys: Ok(false) at the first missing one. */
  function CheckKeys(result: Json, keys: seq<string>): Result<bool, string> {
    if keys == [] then Ok(true)
    else match HasKey(result, keys[0])
      case Err(e) => Err(e)
      case Ok(false) => Ok(false)
      case Ok(true) => CheckKeys(result, keys[1..])
  }

  /** `isinstance(x, (int, float))`: JSON numbers and, since bool is an int, booleans. */
  predicate IsNumeric(j: Json) {
    j.JInt? || j.JNum? || j.JBool?
  }

  function NumericValue(j: Json): real
    requires IsNumeric(j)
  {
    match j
    case JInt(i) => i as real
    case JNum(n) => n
    case JBool(b) => if b then 1.0 else 0.0
  }

  /**
   * `_validate_classification`.  Ok(b) is the boolean the source returns;
   * Err is the message of an exception it raises: `in` on a value that is
   * not a container, `.get` on a list or string that has the four keys,
   * or a list or dict as main category, which cannot be a dict key.
   */
  function ValidateClassification(result: Json, t: Taxonomy): Result<bool, string> {
    match CheckKeys(result, RequiredKeys)
    case Err(e) => Err(e)
    case Ok(false) => Ok(false)
    case Ok(true) =>
      if !result.JObject? then Err("'" + PyTypeName(result) + "' object has no attribute 'get'")
      else
        CheckKeysOnObject(result.fields, RequiredKeys);
        var main := result.fields["main_category"];
        var sub := result.fields["sub_category"];
        var confidence := result.fields["confidence"];
        if main.JArray? || main.JObject? then Err("unhashable type: '" + PyTypeName(main) + "'")
        else if !main.JStr? || Lookup(t, main.s).None? then Ok(false)
        else if sub.JStr? && sub.s in Lookup(t, main.s).value then
          Ok(IsNumeric(confidence) && 0.0 <= NumericValue(confidence) <= 1.0)
        else Ok(false)
  }

  lemma {:induction false} CheckKeysOnObject(f: map<string, Json>, keys: seq<string>)
    ensures CheckKeys(JObject(f), keys) == Ok(forall k :: k in keys ==> k in f)
  {
    if keys != [] {
      CheckKeysOnObject(f, keys[1..]);
    }
  }

  /**
   * A classification passes exactly when it is an object with the four keys,
   * its main category is a taxonomy key, its sub category belongs to that
   * key, and its confidence is a number in [0, 1].
   */
  lemma ValidateIff(result: Json, t: Taxonomy)
    ensures ValidateClassification(result, t) == Ok(true) <==>
      && result.JObject?
      && (forall k :: k in RequiredKeys ==> k in result.fields)
      && result.fields["main_category"].JStr?
      && result.fields["main_category"].s in GetMainCategories(t)
      && result.fields["sub_category"].JStr?
      && result.fields["sub_category"].s in GetSubCategories(t, result.fields["main_category"].s)
      && IsNumeric(result.fields["confidence"])
      && 0.0 <= NumericValue(result.fields["confidence"]) <= 1.0
  {
    if result.JObject? {
      CheckKeysOnObject(result.fields, RequiredKeys);
      if "main_category" in result.fields && result.fields["main_category"].JStr? {
        LookupFindsKeys(t, result.fields["main_category"].s);
      }
    }
  }

  /** Python containers: `in` works on dicts, lists and strings. */
  predicate IsContainer(j: Json) {
    j.JObject? || j.JArray? || j.JStr?
  }

  lemma {:induction false} CheckKeysOnContainer(result: Json, keys: seq<string>)
    requires IsContainer(result)
    ensures CheckKeys(result, keys) == Ok(forall k :: k in keys ==> HasKey(result, k) == Ok(true))
  {
    if keys != [] {
      CheckKeysOnContainer(result, keys[1..]);
      assert forall k :: k in keys <==> k == keys[0] || k in keys[1..];
    }
  }

  /**
   * Validation raises exactly when the reply is a number, a boolean or
   * null; or a list or string holding all four keys; or an object with
   * all four keys whose main category is a list or an object.
   */
  lemma ValidateRaisesIff(result: Json, t: Taxonomy)
    ensures ValidateClassification(result, t).Err? <==>
      || !IsContainer(result)
      || (!result.JObject? && IsContainer(result) && forall k :: k in RequiredKeys ==> HasKey(result, k) == Ok(true))
      || (&& result.JObject?
          && (forall k :: k in RequiredKeys ==> k in result.fields)
          && (result.fields["main_category"].JArray? || result.fields["main_category"].JObject?))
  {
    if IsContainer(result) {
      CheckKeysOnContainer(result, RequiredKeys);
    } else {
      assert RequiredKeys != [];
    }
  }

  // ---------------------------------------------------------------------
  // classify_text and classify_multiple_chunks

  const FailedReasoning := "分類に失敗しました"

  /** The record returned whenever classification does not succeed. */
  function Fallback(reasoning: string): Json {
    JObject(map[
      "main_category" := JStr(""),
      "sub_category" := JStr(""),
      "confidence" := JNum(0.0),
      "reasoning" := JStr(reasoning)])
  }

  predicate IsFallback(r: Json) {
    && r.JObject?
    && "main_category" in r.fields && r.fields["main_category"] == JStr("")
    && "sub_category" in r.fields && r.fields["sub_category"] == JStr("")
    && "confidence" in r.fields && r.fields["confidence"] == JNum(0.0)
  }

  /**
   * `classify_text`.  `llm` gives the model's reply to the classification
   * prompt for a text (Err carries the exception message); `parseJson` is
   * `json.loads` (Err carries the decoder's message).
   */
  function ClassifyText(text: string, t: Taxonomy, llm: string -> Result<string, string>,
                        parseJson: string -> Result<Json, string>): (r: Json)
    ensures ValidateClassification(r, t) == Ok(true) || IsFallback(r)
    ensures !IsFallback(r) ==> llm(text).Ok?
  {
    match llm(text)
    case Err(e) => Fallback("エラー: " + e)
    case Ok(reply) =>
      match ExtractJsonText(Strip(reply))
      case Err(e) => Fallback("エラー: " + e)
      case Ok(jsonText) =>
        match parseJson(jsonText)
        case Err(e) => Fallback("エラー: JSONの解析に失敗しました: " + e)
        case Ok(result) =>
          match ValidateClassification(result, t)
          case Err(e) => Fallback("エラー: " + e)
          case Ok(false) => Fallback(FailedReasoning)
          case Ok(true) => result
  }

  /** A reply that parses to a valid classification is returned as parsed. */
  lemma ClassifyTextKeepsValidResult(text: string, t: Taxonomy, llm: string -> Result<string, string>,
                                     parseJson: string -> Result<Json, string>, reply: string, result: Json)
    requires llm(text) == Ok(reply)
    requires ExtractJsonText(Strip(reply)).Ok?
    requires parseJson(ExtractJsonText(Strip(reply)).value) == Ok(result)
    requires ValidateClassification(result, t) == Ok(true)
    ensures ClassifyText(text, t, llm, parseJson) == result
  {
  }

  /** A chunk as the classifier sees it: its id, its "text" entry if any, and the classification it carries. */
  datatype Chunk = Chunk(id: string, text: Option<string>, aiClassification: Option<Json>)

  predicate HasText(c: Chunk) {
    c.text.Some? && c.text.value != ""
  }

  /** The result of `classify_multiple_chunks`, stated as a filter and a map. */
  function ClassifiedChunks(chunks: seq<Chunk>, t: Taxonomy, llm: string -> Result<string, string>,
                            parseJson: string -> Result<Json, string>): seq<Chunk>
  {
    if chunks == [] then []
    else
      var front := ClassifiedChunks(chunks[..|chunks| - 1], t, llm, parseJson);
      var c := chunks[|chunks| - 1];
      if HasText(c) then front + [c.(aiClassification := Some(ClassifyText(c.text.value, t, llm, parseJson)))]
      else front
  }

  /** Chunks without text are skipped; every other chunk is kept, classified, in order. */
  lemma {:induction false} ClassifiedChunksSkipOnlyEmpty(chunks: seq<Chunk>, t: Taxonomy,
                                                         llm: string -> Result<string, string>,
                                                         parseJson: string -> Result<Json, string>)
    ensures |ClassifiedChunks(chunks, t, llm, parseJson)| <= |chunks|
    ensures (forall i :: 0 <= i < |chunks| ==> HasText(chunks[i])) ==>
      |ClassifiedChunks(chunks, t, llm, parseJson)| == |chunks|
      && forall i :: 0 <= i < |chunks| ==>
           ClassifiedChunks(chunks, t, llm, parseJson)[i].id == chunks[i].id
           && ClassifiedChunks(chunks, t, llm, parseJson)[i].text == chunks[i].text
    ensures forall c :: c in ClassifiedChunks(chunks, t, llm, parseJson) ==>
      HasText(c) && c.aiClassification.Some?
  {
    if chunks != [] {
      var init := chunks[..|chunks| - 1];
      var c := chunks[|chunks| - 1];
      var front := ClassifiedChunks(init, t, llm, parseJson);
      ClassifiedChunksSkipOnlyEmpty(init, t, llm, parseJson);
      if HasText(c) {
        var classified := c.(aiClassification := Some(ClassifyText(c.text.value, t, llm, parseJson)));
        assert ClassifiedChunks(chunks, t, llm, parseJson) == front + [classified];
      } else {
        assert ClassifiedChunks(chunks, t, llm, parseJson) == front;
        assert !(forall i :: 0 <= i < |chunks| ==> HasText(chunks[i]));
      }
    }
  }

  /** One chunk alone: classified when it has text, dropped otherwise. */
  lemma ClassifiedChunksSingle(c: Chunk, t: Taxonomy, llm: string -> Result<string, string>,
                               parseJson: string -> Result<Json, string>)
    ensures HasText(c) ==>
      ClassifiedChunks([c], t, llm, parseJson) == [c.(aiClassification := Some(ClassifyText(c.text.value, t, llm, parseJson)))]
    ensures !HasText(c) ==> ClassifiedChunks([c], t, llm, parseJson) == []
  {
    assert [c][..0] == [];
  }

  /** Each chunk is handled on its own: classifying a concatenation concatenates the results. */
  lemma {:induction false} ClassifiedChunksAppend(a: seq<Chunk>, b: seq<Chunk>, t: Taxonomy,
                                                  llm: string -> Result<string, string>,
                                                  parseJson: string -> Result<Json, string>)
    ensures ClassifiedChunks(a + b, t, llm, parseJson) == ClassifiedChunks(a, t, llm, parseJson) + ClassifiedChunks(b, t, llm, parseJson)
  {
    if b == [] {
      assert a + b == a;
    } else {
      var front := b[..|b| - 1];
      ClassifiedChunksAppend(a, front, t, llm, parseJson);
      assert (a + b)[..|a + b| - 1] == a + front;
      assert (a + b)[|a + b| - 1] == b[|b| - 1];
    }
  }

  /** `classify_multiple_chunks`: a loop that copies each chunk with text and attaches its classification. */
  method ClassifyMultipleChunks(chunks: seq<Chunk>, t: Taxonomy, llm: string -> Result<string, string>,
                                parseJson: string -> Result<Json, string>) returns (results: seq<Chunk>)
    ensures results == ClassifiedChunks(chunks, t, llm, parseJson)
  {
    results := [];
    var i := 0;
    while i < |chunks|
      invariant 0 <= i <= |chunks|
      invariant results == ClassifiedChunks(chunks[..i], t, llm, parseJson)
    {
      assert chunks[..i + 1][..i] == chunks[..i];
      var chunk := chunks[i];
      var text := chunk.text.GetOr("");
      if text != "" {
        var classification := ClassifyText(text, t, llm, parseJson);
        var withClassification := chunk.(aiClassification := Some(classification));
        results := results + [withClassification];
      }
      i := i + 1;
    }
    assert chunks[..i] == chunks;
  }
}
