/**
 * Manual chunk segmentation of an uploaded text and the bookkeeping the
 * upload form does before the chunks are sent to the vector index: the
 * question-example lines and the category precedence.  The wall-clock
 * suffix of a chunk id is not modelled; an id is "manual_chunk_" and the
 * chunk's index.
 */
module FileUpload {
  import opened Strings
  import opened CategoryClassifier

  const ManualChunkType := "manual"

  /** A chunk of `manual_chunk_split` / `advanced_manual_chunk_split` with its metadata. */
  datatype ManualChunk = ManualChunk(
    id: string,
    text: string,
    chunkType: string,
    chunkIndex: nat,
    separatorsUsed: Option<seq<string>>)   // present only in the separator branch of the advanced split

  /** The decimal digits of `n`, as `str(n)` writes them: no leading zero except for 0 itself. */
  function Digits(n: nat): (r: string)
    ensures r != []
    ensures forall k :: 0 <= k < |r| ==> '0' <= r[k] <= '9'
    ensures n > 0 ==> r[0] != '0'
  {
    var d := ['0' + (n % 10) as char];
    if n < 10 then d else Digits(n / 10) + d
  }

  /** The number a string of decimal digits denotes, as `int(s)` reads it. */
  function DecimalValue(s: string): nat
    requires forall k :: 0 <= k < |s| ==> '0' <= s[k] <= '9'
  {
    if s == [] then 0 else 10 * DecimalValue(s[..|s| - 1]) + (s[|s| - 1] - '0') as nat
  }

  /** `int(str(n)) == n`: the digits of a chunk index read back as that index. */
  lemma {:induction false} DigitsValue(n: nat)
    ensures DecimalValue(Digits(n)) == n
  {
    var r := Digits(n);
    if n >= 10 {
      DigitsValue(n / 10);
      assert r[..|r| - 1] == Digits(n / 10);
    }
  }

  /** Different chunk indexes give different ids. */
  lemma ManualChunkIdInjective(i: nat, j: nat)
    requires i != j
    ensures ManualChunkId(i) != ManualChunkId(j)
  {
    DigitsValue(i);
    DigitsValue(j);
    var p := |"manual_chunk_"|;
    assert ManualChunkId(i)[p..] == Digits(i) != Digits(j) == ManualChunkId(j)[p..];
  }

  function ManualChunkId(i: nat): string {
    "manual_chunk_" + Digits(i)
  }

  function MakeChunk(i: nat, text: string, separators: Option<seq<string>>): ManualChunk {
    ManualChunk(ManualChunkId(i), text, ManualChunkType, i, separators)
  }

  // ---------------------------------------------------------------------
  // Non-blank lines

  /** `[p.strip() for p in parts if p.strip()]`. */
  function NonEmptyStripped(parts: seq<string>): (r: seq<string>)
    ensures |r| <= |parts|
    ensures forall k :: 0 <= k < |r| ==> r[k] != [] && IsStripped(r[k])
  {
    if parts == [] then []
    else
      var last := Strip(parts[|parts| - 1]);
      NonEmptyStripped(parts[..|parts| - 1]) + (if last != [] then [last] else [])
  }

  /** The non-blank lines of `s`, stripped: `[x.strip() for x in s.split('\n') if x.strip()]`. */
  function NonBlankLines(s: string): seq<string> {
    NonEmptyStripped(Split(s, "\n"))
  }

  /** Every stripped part that is not empty survives, in order, and nothing else does. */
  lemma NonEmptyStrippedExact(parts: seq<string>)
    ensures forall x :: x in NonEmptyStripped(parts) <==> x != [] && exists i :: 0 <= i < |parts| && x == Strip(parts[i])
  {
    NonEmptyStrippedSound(parts);
    NonEmptyStrippedComplete(parts);
    forall x | x != [] && (exists i :: 0 <= i < |parts| && x == Strip(parts[i]))
      ensures x in NonEmptyStripped(parts)
    {
      var i :| 0 <= i < |parts| && x == Strip(parts[i]);
    }
  }

  lemma {:induction false} NonEmptyStrippedComplete(parts: seq<string>)
    ensures forall i :: 0 <= i < |parts| && Strip(parts[i]) != [] ==> Strip(parts[i]) in NonEmptyStripped(parts)
  {
    if parts != [] {
      var front := parts[..|parts| - 1];
      NonEmptyStrippedComplete(front);
      assert forall i :: 0 <= i < |front| ==> front[i] == parts[i];
    }
  }

  lemma {:induction false} NonEmptyStrippedSound(parts: seq<string>)
    ensures forall x :: x in NonEmptyStripped(parts) ==> exists i :: 0 <= i < |parts| && x == Strip(parts[i])
  {
    if parts != [] {
      var front := parts[..|parts| - 1];
      NonEmptyStrippedSound(front);
      forall x | x in NonEmptyStripped(parts)
        ensures exists i :: 0 <= i < |parts| && x == Strip(parts[i])
      {
        if x in NonEmptyStripped(front) {
          var i :| 0 <= i < |front| && x == Strip(front[i]);
          assert parts[i] == front[i];
        } else {
          assert x == Strip(parts[|parts| - 1]);
        }
      }
    }
  }

  lemma NonEmptyStrippedStep(parts: seq<string>, j: nat)
    requires j < |parts|
    ensures Strip(parts[j]) == [] ==> NonEmptyStripped(parts[..j + 1]) == NonEmptyStripped(parts[..j])
    ensures Strip(parts[j]) != [] ==> NonEmptyStripped(parts[..j + 1]) == NonEmptyStripped(parts[..j]) + [Strip(parts[j])]
  {
    assert parts[..j + 1][..j] == parts[..j];
    assert NonEmptyStripped(parts[..j]) + [] == NonEmptyStripped(parts[..j]);
  }

  lemma NonEmptyStrippedSnoc(parts: seq<string>, x: string)
    ensures NonEmptyStripped(parts + [x])
      == NonEmptyStripped(parts) + (if Strip(x) != [] then [Strip(x)] else [])
  {
    assert (parts + [x])[..|parts|] == parts;
  }

  lemma {:induction false} NonEmptyStrippedAppend(parts: seq<string>, more: seq<string>)
    ensures NonEmptyStripped(parts + more) == NonEmptyStripped(parts) + NonEmptyStripped(more)
    decreases |more|
  {
    if more == [] {
      assert parts + more == parts;
    } else {
      var m', x := more[..|more| - 1], more[|more| - 1];
      var last := Strip(x);
      var tail := if last != [] then [last] else [];
      assert more == m' + [x] && parts + more == (parts + m') + [x];
      calc {
        NonEmptyStripped(parts + more);
        NonEmptyStripped((parts + m') + [x]);
        { NonEmptyStrippedSnoc(parts + m', x); }
        NonEmptyStripped(parts + m') + tail;
        { NonEmptyStrippedAppend(parts, m'); }
        (NonEmptyStripped(parts) + NonEmptyStripped(m')) + tail;
        { AppendAssoc(NonEmptyStripped(parts), NonEmptyStripped(m'), tail); }
        NonEmptyStripped(parts) + (NonEmptyStripped(m') + tail);
        { NonEmptyStrippedSnoc(m', x); }
        NonEmptyStripped(parts) + NonEmptyStripped(more);
      }
    }
  }

  /**
   * The question examples typed into the upload form (file_upload.py
   * 290-292): guarded by `question_examples.strip()`, which changes nothing.
   */
  function QuestionExampleList(input: string): (r: seq<string>)
    ensures r == NonBlankLines(input)
  {
    if Strip(input) != [] then NonBlankLines(input)
    else
      BlankInputHasNoLines(input);
      []
  }

  lemma BlankInputHasNoLines(input: string)
    requires Strip(input) == []
    ensures NonBlankLines(input) == []
  {
    var lines := Split(input, "\n");
    SplitJoin(input, "\n");
    forall i | 0 <= i < |lines|
      ensures Strip(lines[i]) == []
    {
      JoinedPartIsBlank(lines, i);
    }
    AllBlankPartsVanish(lines);
  }

  lemma {:induction false} AllBlankPartsVanish(parts: seq<string>)
    requires forall i :: 0 <= i < |parts| ==> Strip(parts[i]) == []
    ensures NonEmptyStripped(parts) == []
  {
    if parts != [] {
      AllBlankPartsVanish(parts[..|parts| - 1]);
    }
  }

  /** A part of a joined all-blank string is blank too. */
  lemma {:induction false} JoinedPartIsBlank(parts: seq<string>, i: nat)
    requires i < |parts| && AllSpace(Join(parts, "\n"))
    ensures Strip(parts[i]) == []
  {
    if |parts| > 1 {
      var j := Join(parts, "\n");
      assert j == parts[0] + "\n" + Join(parts[1..], "\n");
      if i == 0 {
        assert forall k :: 0 <= k < |parts[0]| ==> parts[0][k] == j[k];
      } else {
        var tail := Join(parts[1..], "\n");
        assert forall k :: 0 <= k < |tail| ==> tail[k] == j[|parts[0]| + 1 + k];
        JoinedPartIsBlank(parts[1..], i - 1);
      }
    }
  }

  /** The separator list: the non-blank lines of the separator field. */
  function ParseSeparators(chunkSeparators: string): (r: seq<string>)
    ensures forall k :: 0 <= k < |r| ==> r[k] != [] && IsStripped(r[k])
  {
    NonBlankLines(chunkSeparators)
  }

  // ---------------------------------------------------------------------
  // manual_chunk_split

  /** The parts `manual_chunk_split` numbers: the text cut at the first separator, if any. */
  function ManualParts(text: string, chunkSeparators: string): (parts: seq<string>)
    ensures |parts| >= 1
  {
    var separators := ParseSeparators(chunkSeparators);
    if chunkSeparators != [] && separators != [] then Split(text, separators[0]) else [text]
  }

  /** The non-blank parts, stripped, each numbered by its position among all parts. */
  function IndexedChunks(parts: seq<string>): seq<ManualChunk> {
    if parts == [] then []
    else
      var i := |parts| - 1;
      var part := Strip(parts[i]);
      IndexedChunks(parts[..i]) + (if part != [] then [MakeChunk(i, part, None)] else [])
  }

  /** `manual_chunk_split`. */
  method ManualChunkSplit(text: string, chunkSeparators: string) returns (chunks: seq<ManualChunk>)
    ensures chunks == IndexedChunks(ManualParts(text, chunkSeparators))
  {
    var parts: seq<string>;
    if chunkSeparators != [] {
      var separators := ParseSeparators(chunkSeparators);
      if separators != [] {
        parts := Split(text, separators[0]);
      } else {
        parts := [text];
      }
    } else {
      parts := [text];
    }
    assert parts == ManualParts(text, chunkSeparators);
    chunks := [];
    var i := 0;
    while i < |parts|
      invariant 0 <= i <= |parts|
      invariant chunks == IndexedChunks(parts[..i])
    {
      IndexedChunksStep(parts, i);
      var part := Strip(parts[i]);
      if part != [] {
        chunks := chunks + [MakeChunk(i, part, None)];
      }
      i := i + 1;
    }
    assert parts[..i] == parts;
  }

  lemma IndexedChunksStep(parts: seq<string>, i: nat)
    requires i < |parts|
    ensures IndexedChunks(parts[..i + 1]) == IndexedChunks(parts[..i])
      + (if Strip(parts[i]) != [] then [MakeChunk(i, Strip(parts[i]), None)] else [])
  {
    assert parts[..i + 1][..i] == parts[..i];
  }

  /**
   * The chunks of `manual_chunk_split`: each is the non-empty stripped part
   * at its `chunk_index`, tagged "manual" without a separator list.
   */
  lemma {:induction false} IndexedChunksSound(parts: seq<string>)
    ensures forall k :: 0 <= k < |IndexedChunks(parts)| ==>
      var c := IndexedChunks(parts)[k];
      && c.chunkIndex < |parts| && c.text == Strip(parts[c.chunkIndex]) && c.text != [] && IsStripped(c.text)
      && c.chunkType == ManualChunkType && c.separatorsUsed.None? && c.id == ManualChunkId(c.chunkIndex)
  {
    if parts != [] {
      var n := |parts| - 1;
      IndexedChunksSound(parts[..n]);
      assert forall i :: 0 <= i < n ==> parts[..n][i] == parts[i];
    }
  }

  /** The `chunk_index` values of `manual_chunk_split` strictly increase (gaps where parts were blank). */
  lemma {:induction false} IndexedChunksIncreasing(parts: seq<string>)
    ensures forall k :: 0 <= k < |IndexedChunks(parts)| ==> IndexedChunks(parts)[k].chunkIndex < |parts|
    ensures forall a, b :: 0 <= a < b < |IndexedChunks(parts)| ==>
      IndexedChunks(parts)[a].chunkIndex < IndexedChunks(parts)[b].chunkIndex
  {
    if parts != [] {
      IndexedChunksIncreasing(parts[..|parts| - 1]);
    }
  }

  /** Every non-blank part gets a chunk, under its own position. */
  lemma {:induction false} IndexedChunksComplete(parts: seq<string>, i: nat)
    requires i < |parts| && Strip(parts[i]) != []
    ensures exists k :: 0 <= k < |IndexedChunks(parts)| && IndexedChunks(parts)[k].chunkIndex == i
  {
    var n := |parts| - 1;
    var r := IndexedChunks(parts);
    var f := IndexedChunks(parts[..n]);
    assert r == f + (if Strip(parts[n]) != [] then [MakeChunk(n, Strip(parts[n]), None)] else []);
    if i < n {
      assert parts[..n][i] == parts[i];
      IndexedChunksComplete(parts[..n], i);
      var k :| 0 <= k < |f| && f[k].chunkIndex == i;
      assert r[k] == f[k];
    } else {
      assert r[|f|].chunkIndex == i;
    }
  }

  /** The texts of `manual_chunk_split` are the non-blank parts, stripped. */
  lemma {:induction false} IndexedChunkTexts(parts: seq<string>)
    ensures |IndexedChunks(parts)| == |NonEmptyStripped(parts)|
    ensures forall k :: 0 <= k < |IndexedChunks(parts)| ==> IndexedChunks(parts)[k].text == NonEmptyStripped(parts)[k]
  {
    if parts != [] {
      IndexedChunkTexts(parts[..|parts| - 1]);
    }
  }

  /** A separator at the very start leaves a blank part 0, so the only chunk has `chunk_index` 1. */
  lemma IndexGapAfterLeadingSeparator(sep: string, body: string)
    requires sep != [] && IsStripped(sep) && '\n' !in sep
    requires body != [] && IsStripped(body) && !Contains(body, sep)
    ensures ManualChunkSplitSpec(sep + body, sep) == [MakeChunk(1, body, None)]
  {
    SeparatorFieldOfOne(sep);
    LeadingSeparatorSplit(sep, body);
    var parts := [[], body];
    StrippedIsFixpoint(body);
    assert parts[..1] == [[]] && parts[..1][..0] == [];
    assert Strip([]) == [];
    assert IndexedChunks(parts[..1]) == [];
  }

  lemma LeadingSeparatorSplit(sep: string, body: string)
    requires sep != [] && !Contains(body, sep)
    ensures Split(sep + body, sep) == [[], body]
  {
    var text := sep + body;
    assert OccursAt(text, sep, 0) by { assert text[..|sep|] == sep; }
    assert text[..0] == [];
    assert text[|sep|..] == body;
    SplitWithoutSeparator(body, sep);
  }

  /** A separator field holding one separator on one line parses to exactly it. */
  lemma SeparatorFieldOfOne(sep: string)
    requires sep != [] && IsStripped(sep) && '\n' !in sep
    ensures ParseSeparators(sep) == [sep]
  {
    forall k: nat | k < |sep|
      ensures !OccursAt(sep, "\n", k)
    {
      assert sep[k..k + 1][0] == sep[k];
    }
    SplitWithoutSeparator(sep, "\n");
    StrippedIsFixpoint(sep);
    assert [sep][..0] == [];
  }

  function ManualChunkSplitSpec(text: string, chunkSeparators: string): seq<ManualChunk> {
    IndexedChunks(ManualParts(text, chunkSeparators))
  }

  // ---------------------------------------------------------------------
  // advanced_manual_chunk_split

  /**
   * The pieces a first-level part is cut into.  The source loops over
   * `separators[1:]` but leaves the loop in both branches of its first
   * iteration, so only `separators[1]` is ever consulted.
   */
  function SubParts(part: string, separators: seq<string>): (r: seq<string>)
    requires |separators| > 1 && separators[1] != []
    ensures |r| >= 1
  {
    if Contains(part, separators[1]) then Split(part, separators[1]) else [part]
  }

  predicate ValidSeparators(separators: seq<string>) {
    forall k :: 0 <= k < |separators| ==> separators[k] != []
  }

  /** The texts contributed by one first-level part. */
  function PartTexts(part: string, separators: seq<string>): (r: seq<string>)
    requires ValidSeparators(separators)
    ensures forall k :: 0 <= k < |r| ==> r[k] != [] && IsStripped(r[k])
  {
    var p := Strip(part);
    if p == [] then []
    else if |separators| > 1 then NonEmptyStripped(SubParts(p, separators))
    else [p]
  }

  /** The chunk texts of the advanced split, in emission order. */
  function AdvancedTexts(parts: seq<string>, separators: seq<string>): (r: seq<string>)
    requires ValidSeparators(separators)
    ensures forall k :: 0 <= k < |r| ==> r[k] != [] && IsStripped(r[k])
  {
    if parts == [] then []
    else AdvancedTexts(parts[..|parts| - 1], separators) + PartTexts(parts[|parts| - 1], separators)
  }

  /** Texts numbered 0, 1, ... in order, each tagged with the separator list. */
  function Numbered(texts: seq<string>, separators: seq<string>): (r: seq<ManualChunk>)
    ensures |r| == |texts|
    ensures forall k :: 0 <= k < |r| ==> r[k] == MakeChunk(k, texts[k], Some(separators))
  {
    seq(|texts|, k requires 0 <= k < |texts| => MakeChunk(k, texts[k], Some(separators)))
  }

  /** The whole text as one chunk, or nothing when it is blank. */
  function WholeTextChunk(text: string): seq<ManualChunk> {
    if Strip(text) != [] then [MakeChunk(0, Strip(text), None)] else []
  }

  function AdvancedChunks(text: string, chunkSeparators: string): seq<ManualChunk> {
    var separators := ParseSeparators(chunkSeparators);
    if chunkSeparators == [] || separators == [] then WholeTextChunk(text)
    else Numbered(AdvancedTexts(Split(text, separators[0]), separators), separators)
  }

  lemma NumberedSnoc(texts: seq<string>, x: string, separators: seq<string>)
    ensures Numbered(texts + [x], separators) == Numbered(texts, separators) + [MakeChunk(|texts|, x, Some(separators))]
  {
    var l, r := Numbered(texts + [x], separators), Numbered(texts, separators) + [MakeChunk(|texts|, x, Some(separators))];
    assert forall k :: 0 <= k < |l| ==> l[k] == r[k];
  }

  /** The inner loop of the advanced split: number and append the non-blank pieces of one part. */
  method EmitSubParts(chunks: seq<ManualChunk>, chunkIndex: nat, ghost texts: seq<string>,
                      subParts: seq<string>, separators: seq<string>)
    returns (chunks': seq<ManualChunk>, chunkIndex': nat)
    requires chunks == Numbered(texts, separators) && chunkIndex == |texts|
    ensures chunks' == Numbered(texts + NonEmptyStripped(subParts), separators)
    ensures chunkIndex' == |texts| + |NonEmptyStripped(subParts)|
  {
    chunks', chunkIndex' := chunks, chunkIndex;
    ghost var done := texts;
    var j := 0;
    while j < |subParts|
      invariant 0 <= j <= |subParts|
      invariant done == texts + NonEmptyStripped(subParts[..j])
      invariant chunks' == Numbered(done, separators) && chunkIndex' == |done|
    {
      NonEmptyStrippedStep(subParts, j);
      var subPart := Strip(subParts[j]);
      if subPart != [] {
        NumberedSnoc(done, subPart, separators);
        AppendAssoc(texts, NonEmptyStripped(subParts[..j]), [subPart]);
        chunks' := chunks' + [MakeChunk(chunkIndex', subPart, Some(separators))];
        done := done + [subPart];
        chunkIndex' := chunkIndex' + 1;
      }
      j := j + 1;
    }
    assert subParts[..j] == subParts;
  }

  /** `advanced_manual_chunk_split`. */
  method AdvancedManualChunkSplit(text: string, chunkSeparators: string) returns (chunks: seq<ManualChunk>)
    ensures chunks == AdvancedChunks(text, chunkSeparators)
  {
    chunks := [];
    if chunkSeparators == [] {
      if Strip(text) != [] {
        chunks := chunks + [MakeChunk(0, Strip(text), None)];
      }
      return;
    }
    var separators := ParseSeparators(chunkSeparators);
    if separators == [] {
      if Strip(text) != [] {
        chunks := chunks + [MakeChunk(0, Strip(text), None)];
      }
      return;
    }
    var parts := Split(text, separators[0]);
    chunks := ChunkParts(parts, separators);
  }

  /** The part loop of the advanced split. */
  method ChunkParts(parts: seq<string>, separators: seq<string>) returns (chunks: seq<ManualChunk>)
    requires ValidSeparators(separators)
    ensures chunks == Numbered(AdvancedTexts(parts, separators), separators)
  {
    chunks := [];
    var chunkIndex := 0;
    ghost var texts: seq<string> := [];
    var i := 0;
    while i < |parts|
      invariant 0 <= i <= |parts|
      invariant texts == AdvancedTexts(parts[..i], separators)
      invariant chunks == Numbered(texts, separators) && chunkIndex == |texts|
    {
      AdvancedTextsSnoc(parts, i, separators);
      chunks, chunkIndex := EmitPart(chunks, chunkIndex, texts, parts[i], separators);
      texts := texts + PartTexts(parts[i], separators);
      i := i + 1;
    }
    assert parts[..i] == parts;
  }

  lemma AdvancedTextsSnoc(parts: seq<string>, i: nat, separators: seq<string>)
    requires ValidSeparators(separators) && i < |parts|
    ensures AdvancedTexts(parts[..i + 1], separators) == AdvancedTexts(parts[..i], separators) + PartTexts(parts[i], separators)
  {
    assert parts[..i + 1][..i] == parts[..i];
  }

  /** The body of the part loop: one first-level part, stripped, cut at `separators[1]` when there is one. */
  method EmitPart(chunks: seq<ManualChunk>, chunkIndex: nat, ghost texts: seq<string>,
                  rawPart: string, separators: seq<string>)
    returns (chunks': seq<ManualChunk>, chunkIndex': nat)
    requires ValidSeparators(separators)
    requires chunks == Numbered(texts, separators) && chunkIndex == |texts|
    ensures chunks' == Numbered(texts + PartTexts(rawPart, separators), separators)
    ensures chunkIndex' == |texts + PartTexts(rawPart, separators)|
  {
    chunks', chunkIndex' := chunks, chunkIndex;
    var part := Strip(rawPart);
    if part == [] {
      assert texts + PartTexts(rawPart, separators) == texts;
      return;
    }
    if |separators| > 1 {
      // the loop over separators[1:] leaves in its first iteration
      var sep := separators[1];
      var subParts: seq<string>;
      if Contains(part, sep) {
        subParts := Split(part, sep);
      } else {
        subParts := [part];
      }
      assert subParts == SubParts(part, separators);
      chunks', chunkIndex' := EmitSubParts(chunks, chunkIndex, texts, subParts, separators);
    } else {
      NumberedSnoc(texts, part, separators);
      chunks' := chunks + [MakeChunk(chunkIndex, part, Some(separators))];
      chunkIndex' := chunkIndex + 1;
    }
  }

  /** `preview_chunks` shows exactly what the advanced split would upload. */
  method PreviewChunks(text: string, chunkSeparators: string) returns (chunks: seq<ManualChunk>)
    ensures chunks == AdvancedChunks(text, chunkSeparators)
  {
    chunks := AdvancedManualChunkSplit(text, chunkSeparators);
  }

  /**
   * Every chunk of the advanced split is non-empty and stripped, its
   * `chunk_index` is its position, and in the separator branch it carries
   * the whole separator list.
   */
  lemma AdvancedChunksWellFormed(text: string, chunkSeparators: string)
    ensures forall k :: 0 <= k < |AdvancedChunks(text, chunkSeparators)| ==>
      var c := AdvancedChunks(text, chunkSeparators)[k];
      && c.chunkIndex == k && c.text != [] && IsStripped(c.text) && c.chunkType == ManualChunkType
      && c.id == ManualChunkId(k)
    ensures chunkSeparators != [] && ParseSeparators(chunkSeparators) != [] ==>
      forall k :: 0 <= k < |AdvancedChunks(text, chunkSeparators)| ==>
        AdvancedChunks(text, chunkSeparators)[k].separatorsUsed == Some(ParseSeparators(chunkSeparators))
  {
  }

  /** Without a usable separator the whole stripped text is the one chunk, if it is not blank. */
  lemma NoSeparatorWholeText(text: string, chunkSeparators: string)
    requires ParseSeparators(chunkSeparators) == []
    ensures AdvancedChunks(text, chunkSeparators) == (if Strip(text) != [] then [MakeChunk(0, Strip(text), None)] else [])
  {
  }

  /** With a single separator the chunk texts are the non-blank parts of the split, stripped, in order. */
  lemma {:induction false} SingleSeparatorTexts(parts: seq<string>, sep: string)
    requires sep != []
    ensures AdvancedTexts(parts, [sep]) == NonEmptyStripped(parts)
  {
    if parts != [] {
      SingleSeparatorTexts(parts[..|parts| - 1], sep);
    }
  }

  /** Only the first two separators matter: lists that agree on them give the same texts. */
  lemma {:induction false} LaterSeparatorsIgnored(parts: seq<string>, s1: seq<string>, s2: seq<string>)
    requires ValidSeparators(s1) && ValidSeparators(s2)
    requires |s1| >= 2 && |s2| >= 2 && s1[..2] == s2[..2]
    ensures AdvancedTexts(parts, s1) == AdvancedTexts(parts, s2)
  {
    if parts != [] {
      LaterSeparatorsIgnored(parts[..|parts| - 1], s1, s2);
      assert s1[1] == s1[..2][1] && s2[1] == s2[..2][1];
    }
  }

  lemma EmptySeparatorField()
    ensures ParseSeparators([]) == []
  {
    assert Find([], "\n").None?;
    var lines: seq<string> := [[]];
    assert Split([], "\n") == lines;
    assert Strip([]) == [];
    assert lines[..0] == [];
  }

  /** With a single separator the chunks are the non-blank parts, stripped and numbered from 0. */
  lemma SingleSeparatorChunks(text: string, sep: string, parts: seq<string>, texts: seq<string>)
    requires sep != [] && ParseSeparators(sep) == [sep]
    requires Split(text, sep) == parts && NonEmptyStripped(parts) == texts
    ensures AdvancedChunks(text, sep) == Numbered(texts, [sep])
  {
    SingleSeparatorTexts(parts, sep);
  }

  /** The text "A", "---", "B", "---" on separate lines, split at "---", gives the chunks "A" and "B". */
  lemma DashedExample()
    ensures AdvancedChunks("A\n---\nB\n---\n", "---")
      == [MakeChunk(0, "A", Some(["---"])), MakeChunk(1, "B", Some(["---"]))]
  {
    DashedExampleNumbered();
    NumberedPair("A", "B", "---");
  }

  lemma DashedExampleNumbered()
    ensures AdvancedChunks("A\n---\nB\n---\n", "---") == Numbered(["A", "B"], ["---"])
  {
    SeparatorFieldOfOne("---");
    DashedExampleParts();
    DashedExampleTexts();
    SingleSeparatorChunks("A\n---\nB\n---\n", "---", ["A\n", "\nB\n", "\n"], ["A", "B"]);
  }

  lemma NumberedPair(a: string, b: string, sep: string)
    ensures Numbered([a, b], [sep]) == [MakeChunk(0, a, Some([sep])), MakeChunk(1, b, Some([sep]))]
  {
  }

  lemma DashedExampleTexts()
    ensures NonEmptyStripped(["A\n", "\nB\n", "\n"]) == ["A", "B"]
  {
    var parts := ["A\n", "\nB\n", "\n"];
    DashedExampleStrips();
    assert parts[..2] == ["A\n", "\nB\n"] && parts[..2][..1] == ["A\n"] && parts[..1][..0] == [];
    assert NonEmptyStripped(parts[..1]) == ["A"];
    assert NonEmptyStripped(parts[..2]) == ["A", "B"];
  }

  lemma DashedExampleParts()
    ensures Split("A\n---\nB\n---\n", "---") == ["A\n", "\nB\n", "\n"]
  {
    var sep := "---";
    DashedExampleTail();
    assert "A\n---\nB\n---\n" == "A\n" + sep + "\nB\n---\n";
    FirstCharAbsent("A\n", sep);
    SplitAfterForeignEnd("A\n", sep, "\nB\n---\n");
  }

  lemma DashedExampleTail()
    ensures Split("\nB\n---\n", "---") == ["\nB\n", "\n"]
  {
    var sep := "---";
    assert "\nB\n---\n" == "\nB\n" + sep + "\n";
    FirstCharAbsent("\nB\n", sep);
    SplitAfterForeignEnd("\nB\n", sep, "\n");
    FirstCharAbsent("\n", sep);
    SplitWithoutSeparator("\n", sep);
  }

  lemma DashedExampleStrips()
    ensures Strip("A\n") == "A" && Strip("\nB\n") == "B" && Strip("\n") == []
  {
    assert LeadingSpaces("A\n") == 0;
    assert TrailingSpaces("A\n") == 1 by { assert "A\n"[..1] == "A"; }
    assert LeadingSpaces("\nB\n") == 1 by { assert "\nB\n"[1..] == "B\n"; }
    assert TrailingSpaces("B\n") == 1 by { assert "B\n"[..1] == "B"; }
    assert "\nB\n"[1..] == "B\n" && "B\n"[..1] == "B";
    assert AllSpace("\n");
  }

  /** Two separator fields agreeing on their first two separators split the text into the same chunk texts. */
  lemma SameFirstTwoSeparators(text: string, cs1: string, cs2: string)
    requires |ParseSeparators(cs1)| >= 2 && |ParseSeparators(cs2)| >= 2
    requires ParseSeparators(cs1)[..2] == ParseSeparators(cs2)[..2]
    ensures |AdvancedChunks(text, cs1)| == |AdvancedChunks(text, cs2)|
    ensures forall k :: 0 <= k < |AdvancedChunks(text, cs1)| ==>
      AdvancedChunks(text, cs1)[k].text == AdvancedChunks(text, cs2)[k].text
  {
    var s1, s2 := ParseSeparators(cs1), ParseSeparators(cs2);
    assert s1[0] == s2[0] by { assert s1[0] == s1[..2][0] && s2[0] == s2[..2][0]; }
    var t1 := AdvancedTexts(Split(text, s1[0]), s1);
    var t2 := AdvancedTexts(Split(text, s2[0]), s2);
    assert t1 == t2 by { LaterSeparatorsIgnored(Split(text, s1[0]), s1, s2); }
    SplitChunks(text, cs1);
    SplitChunks(text, cs2);
  }

  /** With at least one separator, the chunks are the advanced texts, numbered. */
  lemma SplitChunks(text: string, cs: string)
    requires ParseSeparators(cs) != []
    ensures var s := ParseSeparators(cs);
      AdvancedChunks(text, cs) == Numbered(AdvancedTexts(Split(text, s[0]), s), s)
  {
    EmptySeparatorField();
  }

  // ---------------------------------------------------------------------
  // Category precedence and the metadata the upload form attaches

  /** Python's `d.get(key, default)` on a JSON object. */
  function GetField(d: map<string, Json>, key: string, default: Json): Json {
    if key in d then d[key] else default
  }

  /** The metadata record written over each chunk's metadata before upload. */
  datatype UploadMetadata = UploadMetadata(
    mainCategory: Json,
    subCategory: Json,
    city: string,
    createdDate: string,
    uploadDate: string,
    source: string,
    questionExamples: seq<string>,
    aiConfidence: Option<Json>,
    aiReasoning: Option<Json>,
    aiClassification: Option<map<string, Json>>)

  /** A chunk in the upload form, after the optional manual edit and AI classification. */
  datatype UploadChunk = UploadChunk(
    id: string,
    text: string,
    manualMainCategory: Option<string>,
    manualSubCategory: Option<string>,
    aiClassification: Option<map<string, Json>>,
    metadata: Option<UploadMetadata>,
    filename: Option<string>,
    chunkId: Option<string>)

  /** The form's fields that go into every chunk's metadata; absent dates and names become "". */
  datatype FormFields = FormFields(
    city: Option<string>, createdDate: Option<string>, uploadDate: string,
    source: Option<string>, questionExamples: seq<string>)

  /** The metadata for one chunk: a non-empty manual main category wins over the AI classification. */
  function BuildMetadata(c: UploadChunk, form: FormFields): (m: UploadMetadata)
    ensures c.manualMainCategory.Some? && c.manualMainCategory.value != [] ==>
      && m.mainCategory == JStr(c.manualMainCategory.value)
      && m.subCategory == JStr(c.manualSubCategory.GetOr([]))
      && m.aiConfidence.None? && m.aiReasoning.None?
    ensures (c.manualMainCategory.None? || c.manualMainCategory.value == []) && c.aiClassification.Some? ==>
      && m.mainCategory == GetField(c.aiClassification.value, "main_category", JStr([]))
      && m.subCategory == GetField(c.aiClassification.value, "sub_category", JStr([]))
      && m.aiConfidence == Some(GetField(c.aiClassification.value, "confidence", JNum(0.0)))
      && m.aiReasoning == Some(GetField(c.aiClassification.value, "reasoning", JStr([])))
    ensures (c.manualMainCategory.None? || c.manualMainCategory.value == []) && c.aiClassification.None? ==>
      m.mainCategory == JStr([]) && m.subCategory == JStr([]) && m.aiConfidence.None? && m.aiReasoning.None?
    ensures m.aiClassification == c.aiClassification
    ensures m.city == form.city.GetOr([]) && m.source == form.source.GetOr([])
    ensures m.questionExamples == form.questionExamples
  {
    var base := UploadMetadata(JStr([]), JStr([]), form.city.GetOr([]), form.createdDate.GetOr([]),
                               form.uploadDate, form.source.GetOr([]), form.questionExamples,
                               None, None, c.aiClassification);
    if c.manualMainCategory.Some? && c.manualMainCategory.value != [] then
      base.(mainCategory := JStr(c.manualMainCategory.value),
            subCategory := JStr(c.manualSubCategory.GetOr([])))
    else if c.aiClassification.Some? then
      var ai := c.aiClassification.value;
      base.(mainCategory := GetField(ai, "main_category", JStr([])),
            subCategory := GetField(ai, "sub_category", JStr([])),
            aiConfidence := Some(GetField(ai, "confidence", JNum(0.0))),
            aiReasoning := Some(GetField(ai, "reasoning", JStr([]))))
    else base
  }

  /** What one chunk looks like after the form has prepared it. */
  function Prepared(c: UploadChunk, filename: string, form: FormFields): UploadChunk {
    c.(metadata := Some(BuildMetadata(c, form)), filename := Some(filename), chunkId := Some(c.id))
  }

  /** The per-chunk loop of the upload handler, updating the chunks in place. */
  method PrepareChunks(chunks: array<UploadChunk>, filename: string, form: FormFields)
    modifies chunks
    ensures forall k :: 0 <= k < chunks.Length ==> chunks[k] == Prepared(old(chunks[k]), filename, form)
  {
    var k := 0;
    while k < chunks.Length
      invariant 0 <= k <= chunks.Length
      invariant forall j :: 0 <= j < k ==> chunks[j] == Prepared(old(chunks[j]), filename, form)
      invariant forall j :: k <= j < chunks.Length ==> chunks[j] == old(chunks[j])
    {
      var c := chunks[k];
      var metadata := BuildMetadata(c, form);
      chunks[k] := c.(metadata := Some(metadata), filename := Some(filename), chunkId := Some(c.id));
      k := k + 1;
    }
  }

  /** Preparing keeps the chunk's identity, text and inputs, and the metadata records the chunk's own id. */
  lemma PreparedKeepsChunk(c: UploadChunk, filename: string, form: FormFields)
    ensures var p := Prepared(c, filename, form);
      && p.id == c.id && p.text == c.text && p.chunkId == Some(c.id) && p.filename == Some(filename)
      && p.manualMainCategory == c.manualMainCategory && p.aiClassification == c.aiClassification
      && Prepared(p, filename, form) == p
  {
  }

  /** A chunk of the manual split as the save handler receives it: no categories, no classification. */
  function FromSplit(c: ManualChunk): UploadChunk {
    UploadChunk(c.id, c.text, None, None, None, None, None, None)
  }

  /**
   * The save handler's chunks come straight from the manual split, so the
   * category precedence never applies to them: both categories stay "".
   */
  lemma SavedSplitChunksUncategorised(c: ManualChunk, form: FormFields)
    ensures var m := BuildMetadata(FromSplit(c), form);
      m.mainCategory == JStr([]) && m.subCategory == JStr([]) && m.aiConfidence.None? && m.aiClassification.None?
  {
  }
}
