/**
 * Response templates and the parsers for the language model's replies that
 * propose question examples and question/answer examples.  The model's
 * reply is an input (Err carries the exception message when the call
 * fails), so no language model is needed.
 */
module ResponseTemplates {
  import opened Strings

  // ---------------------------------------------------------------------
  // Templates

  /** A `str.format` template as a sequence of literal text and `{name}` placeholders. */
  datatype Segment = Lit(text: string) | Field(name: string)

  datatype ResponseTemplate = ResponseTemplate(template: seq<Segment>, requiredFields: seq<string>)

  const FacilityTemplate := ResponseTemplate(
    [Field("name"), Lit("についてお調べしました。\n\n場所は"), Field("address"), Lit("にあります。\n"),
     Field("distance"), Lit("の場所にあります。\n\n"), Field("additional_info"),
     Lit("\n\n他に気になることはありますか？")],
    ["name", "address", "distance"])

  const AreaTemplate := ResponseTemplate(
    [Field("area_name"), Lit("の地域情報についてお伝えします。\n\n治安状況は"), Field("safety"),
     Lit("です。\n交通アクセスは"), Field("transportation"), Lit("です。\n教育環境は"), Field("education"),
     Lit("です。\n\n"), Field("additional_info"), Lit("\n\n他に気になることはありますか？")],
    ["area_name", "safety", "transportation"])

  const PropertyTemplate := ResponseTemplate(
    [Field("property_name"), Lit("の物件情報についてお伝えします。\n\n価格は"), Field("price"),
     Lit("です。\n間取りは"), Field("layout"), Lit("です。\n面積は"), Field("area"),
     Lit("です。\n設備は"), Field("facilities"), Lit("です。\n\n"), Field("additional_info"),
     Lit("\n\n他に気になることはありますか？")],
    ["property_name", "price", "layout"])

  datatype FormatError =
    | UnknownQuestionType(message: string)   // ValueError from get_template
    | MissingRequiredFields(fields: seq<string>)  // ValueError from format_response
    | MissingKey(name: string)                // KeyError raised by str.format

  /** `get_template`. */
  function GetTemplate(questionType: string): (r: Result<ResponseTemplate, FormatError>)
    ensures r.Ok? <==> questionType in {"facility", "area", "property"}
    ensures r.Err? ==> r.error == UnknownQuestionType("Unknown question type: " + questionType)
  {
    if questionType == "facility" then Ok(FacilityTemplate)
    else if questionType == "area" then Ok(AreaTemplate)
    else if questionType == "property" then Ok(PropertyTemplate)
    else Err(UnknownQuestionType("Unknown question type: " + questionType))
  }

  /** The placeholders of a template, in order. */
  function Placeholders(template: seq<Segment>): seq<string> {
    if template == [] then []
    else (if template[0].Field? then [template[0].name] else []) + Placeholders(template[1..])
  }

  /** `[field for field in required if field not in data]`. */
  function MissingFields(required: seq<string>, data: map<string, string>): (r: seq<string>)
    ensures forall f :: f in r <==> f in required && f !in data
    ensures |r| <= |required|
  {
    if required == [] then []
    else (if required[0] in data then [] else [required[0]]) + MissingFields(required[1..], data)
  }

  /** The missing fields keep the order of the required list: the check distributes over concatenation. */
  lemma {:induction false} MissingFieldsInOrder(a: seq<string>, b: seq<string>, data: map<string, string>)
    ensures MissingFields(a + b, data) == MissingFields(a, data) + MissingFields(b, data)
  {
    if a == [] {
      assert a + b == b;
    } else {
      MissingFieldsInOrder(a[1..], b, data);
      assert (a + b)[1..] == a[1..] + b;
      var h := if a[0] in data then [] else [a[0]];
      AppendAssoc(h, MissingFields(a[1..], data), MissingFields(b, data));
    }
  }

  /** `template.format(**data)`: KeyError at the first placeholder without a value. */
  function Fill(template: seq<Segment>, data: map<string, string>): (r: Result<string, FormatError>)
    ensures r.Err? ==> r.error.MissingKey?
  {
    if template == [] then Ok([])
    else
      var head := match template[0]
        case Lit(t) => Ok(t)
        case Field(n) => if n in data then Ok(data[n]) else Err(MissingKey(n));
      if head.Err? then head
      else
        var rest := Fill(template[1..], data);
        if rest.Err? then rest else Ok(head.value + rest.value)
  }

  /** Filling succeeds exactly when every placeholder has a value; otherwise it names a missing one. */
  lemma {:induction false} FillSucceedsIff(template: seq<Segment>, data: map<string, string>)
    ensures Fill(template, data).Ok? <==> forall n :: n in Placeholders(template) ==> n in data
    ensures Fill(template, data).Err? ==>
      Fill(template, data).error.MissingKey?
      && Fill(template, data).error.name in Placeholders(template)
      && Fill(template, data).error.name !in data
  {
    if template != [] {
      FillSucceedsIff(template[1..], data);
    }
  }

  /**
   * `format_response`: an unknown type raises the ValueError of
   * `get_template`; a known type with required fields absent raises the
   * ValueError naming them; otherwise the result is `str.format`, which
   * succeeds exactly when every placeholder has a value.
   */
  function FormatResponse(questionType: string, data: map<string, string>): (r: Result<string, FormatError>)
    ensures GetTemplate(questionType).Err? ==> r == Err(GetTemplate(questionType).error)
    ensures GetTemplate(questionType).Ok? ==>
      var template := GetTemplate(questionType).value;
      && (r.Err? && r.error.MissingRequiredFields? <==> exists f :: f in template.requiredFields && f !in data)
      && (r.Err? && r.error.MissingRequiredFields? ==>
            r.error.fields != []
            && forall f :: f in r.error.fields <==> f in template.requiredFields && f !in data)
      && (r.Ok? <==> (forall f :: f in template.requiredFields ==> f in data)
                     && forall n :: n in Placeholders(template.template) ==> n in data)
      && (r.Ok? ==> r == Fill(template.template, data))
      && (r.Err? && r.error.MissingKey? ==> r.error.name in Placeholders(template.template) && r.error.name !in data)
  {
    match GetTemplate(questionType)
    case Err(e) => Err(e)
    case Ok(template) =>
      var missing := MissingFields(template.requiredFields, data);
      FillSucceedsIff(template.template, data);
      if missing != [] then
        assert missing[0] in missing;
        Err(MissingRequiredFields(missing))
      else Fill(template.template, data)
  }

  lemma NoMissingFields(required: seq<string>, data: map<string, string>)
    requires forall f :: f in required ==> f in data
    ensures MissingFields(required, data) == []
  {
    var m := MissingFields(required, data);
    assert forall k :: 0 <= k < |m| ==> m[k] in m;
  }

  /** Filling a literal followed by more segments. */
  lemma FillLit(t: string, rest: seq<Segment>, data: map<string, string>)
    ensures Fill([Lit(t)] + rest, data) == if Fill(rest, data).Ok? then Ok(t + Fill(rest, data).value) else Fill(rest, data)
  {
    assert ([Lit(t)] + rest)[1..] == rest;
  }

  /** Filling a placeholder that has a value, followed by more segments. */
  lemma FillField(n: string, rest: seq<Segment>, data: map<string, string>)
    requires n in data
    ensures Fill([Field(n)] + rest, data) == if Fill(rest, data).Ok? then Ok(data[n] + Fill(rest, data).value) else Fill(rest, data)
  {
    assert ([Field(n)] + rest)[1..] == rest;
  }

  /**
   * Passing the required-field check is not enough: the facility template
   * also uses `additional_info`, which is not required.
   */
  lemma RequiredFieldsAreNotEnough(data: map<string, string>)
    requires "name" in data && "address" in data && "distance" in data
    requires "additional_info" !in data
    ensures FormatResponse("facility", data) == Err(MissingKey("additional_info"))
  {
    var t := FacilityTemplate.template;
    var e := Err(MissingKey("additional_info"));
    assert Fill(t[6..], data) == e by {
      assert t[6..] == [Field("additional_info")] + t[7..];
    }
    assert Fill(t[5..], data) == e by {
      assert t[5..] == [t[5]] + t[6..];
      FillLit(t[5].text, t[6..], data);
    }
    assert Fill(t[4..], data) == e by {
      assert t[4..] == [t[4]] + t[5..];
      FillField("distance", t[5..], data);
    }
    assert Fill(t[3..], data) == e by {
      assert t[3..] == [t[3]] + t[4..];
      FillLit(t[3].text, t[4..], data);
    }
    assert Fill(t[2..], data) == e by {
      assert t[2..] == [t[2]] + t[3..];
      FillField("address", t[3..], data);
    }
    assert Fill(t[1..], data) == e by {
      assert t[1..] == [t[1]] + t[2..];
      FillLit(t[1].text, t[2..], data);
    }
    assert Fill(t, data) == e by {
      assert t == [t[0]] + t[1..];
      FillField("name", t[1..], data);
    }
    NoMissingFields(FacilityTemplate.requiredFields, data);
  }

  // ---------------------------------------------------------------------
  // Question-example replies

  /** `line.startswith(('1.', '2.', '3.', '4.', '5.', '-', '•'))`: a line the parser skips. */
  predicate IsListItem(line: string) {
    || StartsWith(line, "1.") || StartsWith(line, "2.") || StartsWith(line, "3.")
    || StartsWith(line, "4.") || StartsWith(line, "5.") || StartsWith(line, "-") || StartsWith(line, "•")
  }

  /** `line.startswith(('1', '2', '3', '4', '5'))`. */
  predicate StartsWithDigit(line: string) {
    StartsWith(line, "1") || StartsWith(line, "2") || StartsWith(line, "3") || StartsWith(line, "4") || StartsWith(line, "5")
  }

  /** `line.startswith(('-', '•'))`. */
  predicate StartsWithBullet(line: string) {
    StartsWith(line, "-") || StartsWith(line, "•")
  }

  /** `line[line.find('.') + 1:]`: everything after the first '.', or the whole line when there is none. */
  function AfterFirstDot(line: string): (r: string)
    ensures '.' !in line ==> r == line
    ensures '.' in line ==> exists i :: 0 <= i < |line| && line[i] == '.' && '.' !in line[..i] && r == line[i + 1..]
  {
    OccursAtChar(line, '.');
    match Find(line, ".")
    case None => line
    case Some(i) => line[i + 1..]
  }

  /**
   * A line starting with a digit 1-5 loses everything up to and including
   * its first '.' (nothing when it has none), and is stripped again.
   */
  function CutNumber(line: string): (r: string)
    ensures !StartsWithDigit(line) ==> r == line
    ensures StartsWithDigit(line) ==> IsStripped(r) && |r| <= |line|
    ensures StartsWithDigit(line) && '.' !in line ==> r == Strip(line)
    ensures StartsWithDigit(line) && '.' in line ==>
      exists i :: 0 <= i < |line| && line[i] == '.' && '.' !in line[..i] && r == Strip(line[i + 1..])
  {
    if StartsWithDigit(line) then Strip(AfterFirstDot(line)) else line
  }

  /** A line starting with a bullet '-' or '•' loses that one character and is stripped again. */
  function CutBullet(line: string): (r: string)
    ensures !StartsWithBullet(line) ==> r == line
    ensures StartsWithBullet(line) ==> (line[0] == '-' || line[0] == '•') && r == Strip(line[1..])
    ensures StartsWithBullet(line) ==> IsStripped(r) && |r| < |line|
  {
    if StartsWithBullet(line) then Strip(line[1..]) else line
  }

  /** A non-empty line without a final question mark gets a full-width one. */
  function MarkQuestion(line: string): (r: string)
    ensures line == [] ==> r == []
    ensures line != [] ==> EndsWith(r, "？") || EndsWith(r, "?")
    ensures EndsWith(line, "？") || EndsWith(line, "?") ==> r == line
    ensures line != [] && !EndsWith(line, "？") && !EndsWith(line, "?") ==> |r| == |line| + 1 && r[|line|] == '？'
    ensures line <= r
  {
    if line != [] && !EndsWith(line, "？") && !EndsWith(line, "?") then
      assert (line + "？")[|line|..] == "？";
      line + "？"
    else line
  }

  /** What the question parser makes of one line of the reply, if anything. */
  function QuestionFromLine(raw: string): (r: Option<string>)
    ensures r.Some? ==> r.value != [] && (EndsWith(r.value, "？") || EndsWith(r.value, "?"))
    ensures Strip(raw) == [] || IsListItem(Strip(raw)) ==> r == None
    ensures r.Some? <==> Strip(raw) != [] && !IsListItem(Strip(raw)) && CutBullet(CutNumber(Strip(raw))) != []
    ensures r.Some? ==> CutBullet(CutNumber(Strip(raw))) <= r.value
  {
    var line := Strip(raw);
    if line == [] || IsListItem(line) then None
    else
      var q := MarkQuestion(CutBullet(CutNumber(line)));
      if q != [] then Some(q) else None
  }

  function QuestionsFromLines(lines: seq<string>): seq<string> {
    if lines == [] then []
    else
      var front := QuestionsFromLines(lines[..|lines| - 1]);
      match QuestionFromLine(lines[|lines| - 1])
      case None => front
      case Some(q) => front + [q]
  }

  /** The lines of a reply: stripped as a whole, then cut at each newline. */
  function ReplyLines(reply: string): seq<string> {
    Split(Strip(reply), "\n")
  }

  lemma QuestionsSnoc(lines: seq<string>)
    requires lines != []
    ensures var r := QuestionFromLine(lines[|lines| - 1]);
      QuestionsFromLines(lines) == QuestionsFromLines(lines[..|lines| - 1]) + (if r.Some? then [r.value] else [])
  {
  }

  /** Every parsed question is non-empty and ends in a question mark. */
  lemma {:induction false} ParsedQuestionsAreQuestions(lines: seq<string>)
    ensures |QuestionsFromLines(lines)| <= |lines|
    ensures forall q :: q in QuestionsFromLines(lines) ==> q != [] && (EndsWith(q, "？") || EndsWith(q, "?"))
  {
    if lines != [] {
      var front := lines[..|lines| - 1];
      ParsedQuestionsAreQuestions(front);
      var r := QuestionFromLine(lines[|lines| - 1]);
      var qs := QuestionsFromLines(front);
      QuestionsSnoc(lines);
      if r.Some? {
        assert forall q :: q in qs + [r.value] ==> q in qs || q == r.value;
      }
    }
  }

  /** A line that already is a plain question is kept as it is. */
  lemma PlainQuestionKept(line: string)
    requires line != [] && IsStripped(line) && !StartsWithDigit(line) && !StartsWithBullet(line)
    requires !IsListItem(line)
    requires EndsWith(line, "？") || EndsWith(line, "?")
    ensures QuestionFromLine(line) == Some(line)
  {
    StrippedIsFixpoint(line);
  }

  /** A plain line without a question mark is kept with one full-width '？' appended. */
  lemma PlainLineMarked(line: string)
    requires line != [] && IsStripped(line) && !StartsWithDigit(line) && !StartsWithBullet(line)
    requires !IsListItem(line)
    requires !EndsWith(line, "？") && !EndsWith(line, "?")
    ensures QuestionFromLine(line) == Some(line + "？")
  {
    StrippedIsFixpoint(line);
  }

  /** A line numbered "1." to "5." is dropped, not cleaned. */
  lemma NumberedLineDropped(d: char, rest: string)
    requires '1' <= d <= '5'
    requires rest != [] && !IsSpace(rest[|rest| - 1])
    ensures QuestionFromLine([d, '.'] + rest) == None
  {
    var line := [d, '.'] + rest;
    StrippedIsFixpoint(line);
    assert line[..2] == [d, '.'];
    assert StartsWith(line, "1.") || StartsWith(line, "2.") || StartsWith(line, "3.")
        || StartsWith(line, "4.") || StartsWith(line, "5.");
  }

  /** A numbered line the first check lets through: a digit 1-5, a second character other than '.', then the first '.'. */
  lemma NumberedLine(d: char, e: char, rest: string)
    requires '1' <= d <= '5' && e != '.'
    ensures !IsListItem([d, e, '.'] + rest) && StartsWithDigit([d, e, '.'] + rest)
    ensures AfterFirstDot([d, e, '.'] + rest) == rest
  {
    var line := [d, e, '.'] + rest;
    assert line[..1] == [d];
    assert line[..2] == [d, e];
    assert StartsWith(line, "1") || StartsWith(line, "2") || StartsWith(line, "3")
        || StartsWith(line, "4") || StartsWith(line, "5");
    assert OccursAt(line, ".", 2) by { assert line[2..3] == "."; }
    assert line[0..1] != "." && line[1..2] != ".";
    assert line[3..] == rest;
  }

  /** "10." and the like are not among the skipped prefixes, so the number is cut off instead. */
  lemma TwoDigitNumberCut(d: char, e: char, rest: string)
    requires '1' <= d <= '5' && '0' <= e <= '9'
    requires rest != [] && IsStripped(rest) && !StartsWithBullet(rest)
    requires !EndsWith(rest, "？") && !EndsWith(rest, "?")
    ensures QuestionFromLine([d, e, '.', ' '] + rest) == Some(rest + "？")
  {
    var line := [d, e, '.', ' '] + rest;
    assert line == [d, e, '.'] + ([' '] + rest);
    assert line[|line| - 1] == rest[|rest| - 1];
    StrippedIsFixpoint(line);
    NumberedLine(d, e, [' '] + rest);
    StripLeadingBlank(rest);
    assert CutNumber(line) == rest;
  }

  lemma BulletLineStripped(d: char, e: char, q: string)
    requires !IsSpace(d) && q != [] && IsStripped(q)
    ensures Strip([d, e, '.', '-'] + q) == [d, e, '.', '-'] + q
  {
    var line := [d, e, '.', '-'] + q;
    assert line[|line| - 1] == q[|q| - 1];
    StrippedIsFixpoint(line);
  }

  lemma BulletAfterDot(d: char, e: char, q: string)
    requires '1' <= d <= '5' && e != '.'
    requires q != [] && IsStripped(q)
    ensures CutNumber([d, e, '.', '-'] + q) == ['-'] + q
  {
    var rest := ['-'] + q;
    var line := [d, e, '.', '-'] + q;
    assert line == [d, e, '.'] + rest;
    NumberedLine(d, e, rest);
    assert StartsWithDigit(line) && AfterFirstDot(line) == rest;
    assert rest[|rest| - 1] == q[|q| - 1];
    StrippedIsFixpoint(rest);
    assert CutNumber(line) == Strip(rest);
  }

  lemma BulletCut(q: string)
    requires IsStripped(q)
    ensures CutBullet(['-'] + q) == q
  {
    var rest := ['-'] + q;
    assert rest[..1] == "-" && rest[1..] == q;
    StrippedIsFixpoint(q);
  }

  /** The bullet-stripping step is reached when a bullet follows a cut-off number ("1x.-q"). */
  lemma BulletAfterNumberStripped(d: char, e: char, q: string)
    requires '1' <= d <= '5' && e != '.'
    requires q != [] && IsStripped(q) && !EndsWith(q, "？") && !EndsWith(q, "?")
    ensures QuestionFromLine([d, e, '.', '-'] + q) == Some(q + "？")
  {
    var line := [d, e, '.', '-'] + q;
    BulletLineStripped(d, e, q);
    assert line == [d, e, '.'] + (['-'] + q);
    NumberedLine(d, e, ['-'] + q);
    BulletAfterDot(d, e, q);
    BulletCut(q);
  }

  /** The line loop shared by `generate_question_examples` and `improve_question_examples`. */
  method ParseQuestions(responseText: string) returns (questions: seq<string>)
    ensures questions == QuestionsFromLines(ReplyLines(responseText))
  {
    var lines := Split(Strip(responseText), "\n");
    questions := [];
    var i := 0;
    while i < |lines|
      invariant 0 <= i <= |lines|
      invariant questions == QuestionsFromLines(lines[..i])
    {
      assert lines[..i + 1][..i] == lines[..i];
      ghost var expected := QuestionFromLine(lines[i]);
      assert QuestionsFromLines(lines[..i + 1]) == if expected.Some? then questions + [expected.value] else questions;
      var line := Strip(lines[i]);
      if line != [] && !IsListItem(line) {
        line := CutNumber(line);
        line := CutBullet(line);
        line := MarkQuestion(line);
        if line != [] {
          questions := questions + [line];
        }
      }
      i := i + 1;
    }
    assert lines[..i] == lines;
  }

  /** `generate_question_examples`: the parsed questions, at most `maxQuestions` of them (Python slice). */
  method GenerateQuestionExamples(reply: Result<string, string>, maxQuestions: int) returns (r: seq<string>)
    ensures reply.Err? ==> r == []
    ensures reply.Ok? ==> r == PyPrefix(QuestionsFromLines(ReplyLines(reply.value)), maxQuestions)
    ensures maxQuestions >= 0 ==> |r| <= maxQuestions
  {
    if reply.Err? {
      return [];
    }
    var questions := ParseQuestions(reply.value);
    r := PyPrefix(questions, maxQuestions);
  }

  /** `improve_question_examples`: the parsed questions, uncapped; the old ones when the call fails. */
  method ImproveQuestionExamples(reply: Result<string, string>, existingQuestions: seq<string>)
    returns (r: seq<string>)
    ensures reply.Err? ==> r == existingQuestions
    ensures reply.Ok? ==> r == QuestionsFromLines(ReplyLines(reply.value))
  {
    if reply.Err? {
      return existingQuestions;
    }
    r := ParseQuestions(reply.value);
  }

  // ---------------------------------------------------------------------
  // Question/answer replies

  datatype QaPair = QaPair(question: string, answer: string)

  /** The parser's variables: the pairs so far and the current question and answer. */
  datatype QaState = QaState(pairs: seq<QaPair>, question: string, answer: string)

  const QuestionTag := "質問:"
  const AnswerTag := "回答:"

  /** Keep the current pair when both halves are non-empty. */
  function Flush(st: QaState): seq<QaPair> {
    if st.question != [] && st.answer != [] then st.pairs + [QaPair(st.question, st.answer)] else st.pairs
  }

  function QaStep(st: QaState, raw: string): QaState {
    var line := Strip(raw);
    if line == [] then st
    else if StartsWith(line, QuestionTag) then QaState(Flush(st), Strip(line[3..]), [])
    else if StartsWith(line, AnswerTag) then st.(answer := Strip(line[3..]))
    else st
  }

  function QaRun(lines: seq<string>): QaState {
    if lines == [] then QaState([], [], []) else QaStep(QaRun(lines[..|lines| - 1]), lines[|lines| - 1])
  }

  /** The pairs read from the lines of a reply. */
  function QaPairsFromLines(lines: seq<string>): seq<QaPair> {
    Flush(QaRun(lines))
  }

  /** The question texts of the "質問:" lines, in order. */
  function QuestionTexts(lines: seq<string>): seq<string> {
    if lines == [] then []
    else
      var line := Strip(lines[|lines| - 1]);
      QuestionTexts(lines[..|lines| - 1]) + (if line != [] && StartsWith(line, QuestionTag) then [Strip(line[3..])] else [])
  }

  function Questions(pairs: seq<QaPair>): seq<string> {
    if pairs == [] then [] else Questions(pairs[..|pairs| - 1]) + [pairs[|pairs| - 1].question]
  }

  /** `a` can be obtained from `b` by deleting elements. */
  predicate IsSubsequence(a: seq<string>, b: seq<string>)
    decreases |b|
  {
    if a == [] then true
    else if b == [] then false
    else if a[|a| - 1] == b[|b| - 1] then IsSubsequence(a[..|a| - 1], b[..|b| - 1])
    else IsSubsequence(a, b[..|b| - 1])
  }

  lemma {:induction false} SubsequenceDropLast(a: seq<string>, x: string, b: seq<string>)
    requires IsSubsequence(a + [x], b)
    ensures IsSubsequence(a, b)
    decreases |b|, 0
  {
    if a != [] {
      assert b != [];
      var b' := b[..|b| - 1];
      if x == b[|b| - 1] {
        assert (a + [x])[..|a|] == a;
        SubsequenceExtend(a, b', b[|b| - 1]);
      } else {
        SubsequenceDropLast(a, x, b');
        SubsequenceExtend(a, b', b[|b| - 1]);
      }
    }
  }

  lemma {:induction false} SubsequenceExtend(a: seq<string>, b: seq<string>, y: string)
    requires IsSubsequence(a, b)
    ensures IsSubsequence(a, b + [y])
    decreases |b|, 1
  {
    if a != [] {
      assert (b + [y])[..|b|] == b;
      if a[|a| - 1] == y {
        assert a[..|a| - 1] + [a[|a| - 1]] == a;
        SubsequenceDropLast(a[..|a| - 1], a[|a| - 1], b);
      }
    }
  }

  lemma SubsequenceAppendBoth(a: seq<string>, b: seq<string>, x: string)
    requires IsSubsequence(a, b)
    ensures IsSubsequence(a + [x], b + [x])
  {
    assert (a + [x])[..|a|] == a;
    assert (b + [x])[..|b|] == b;
  }

  /** What the loop keeps true: pairs are complete, and their questions plus the current one follow the "質問:" lines. */
  ghost predicate QaInvariant(st: QaState, lines: seq<string>) {
    && (forall p :: p in st.pairs ==> p.question != [] && p.answer != [])
    && (QuestionTexts(lines) == [] ==> st.pairs == [] && st.question == [])
    && (QuestionTexts(lines) != [] ==>
          st.question == QuestionTexts(lines)[|QuestionTexts(lines)| - 1]
          && IsSubsequence(Questions(st.pairs) + [st.question], QuestionTexts(lines)))
  }

  /** One line keeps the invariant. */
  lemma QaStepInvariant(st: QaState, front: seq<string>, raw: string)
    requires QaInvariant(st, front)
    ensures QaInvariant(QaStep(st, raw), front + [raw])
  {
    var lines := front + [raw];
    assert lines[..|lines| - 1] == front && lines[|lines| - 1] == raw;
    var line := Strip(raw);
    if line != [] && StartsWith(line, QuestionTag) {
      QaQuestionStepInvariant(st, front, raw);
    } else {
      assert QuestionTexts(lines) == QuestionTexts(front);
      assert QaStep(st, raw).pairs == st.pairs && QaStep(st, raw).question == st.question;
    }
  }

  lemma QaQuestionStepInvariant(st: QaState, front: seq<string>, raw: string)
    requires QaInvariant(st, front)
    requires Strip(raw) != [] && StartsWith(Strip(raw), QuestionTag)
    ensures QaInvariant(QaStep(st, raw), front + [raw])
  {
    var lines := front + [raw];
    assert lines[..|lines| - 1] == front && lines[|lines| - 1] == raw;
    var q := Strip(Strip(raw)[3..]);
    var flushed := Flush(st);
    assert QaStep(st, raw) == QaState(flushed, q, []);
    assert QuestionTexts(lines) == QuestionTexts(front) + [q];
    if QuestionTexts(front) != [] {
      if st.question != [] && st.answer != [] {
        assert Questions(flushed) == Questions(st.pairs) + [st.question];
      } else {
        SubsequenceDropLast(Questions(st.pairs), st.question, QuestionTexts(front));
      }
      SubsequenceAppendBoth(Questions(flushed), QuestionTexts(front), q);
    } else {
      assert flushed == [];
      assert Questions(flushed) + [q] == [q];
      assert IsSubsequence([q], [q]) by { assert [q][..0] == []; }
    }
  }

  lemma {:induction false} QaRunInvariant(lines: seq<string>)
    ensures QaInvariant(QaRun(lines), lines)
  {
    if lines != [] {
      var front := lines[..|lines| - 1];
      QaRunInvariant(front);
      QaStepInvariant(QaRun(front), front, lines[|lines| - 1]);
      assert front + [lines[|lines| - 1]] == lines;
    }
  }

  /** Every pair is complete, and the pairs' questions follow the order of the "質問:" lines. */
  lemma QaPairsComplete(lines: seq<string>)
    ensures forall p :: p in QaPairsFromLines(lines) ==> p.question != [] && p.answer != []
    ensures IsSubsequence(Questions(QaPairsFromLines(lines)), QuestionTexts(lines))
  {
    QaRunInvariant(lines);
    var st := QaRun(lines);
    if QuestionTexts(lines) != [] {
      if st.question != [] && st.answer != [] {
        assert Questions(Flush(st)) == Questions(st.pairs) + [st.question];
      } else {
        SubsequenceDropLast(Questions(st.pairs), st.question, QuestionTexts(lines));
      }
    }
  }

  /** A "質問: q" line closes the current pair (kept only when complete) and opens a new one. */
  lemma QuestionLineStep(st: QaState, q: string)
    requires q != [] && IsStripped(q)
    ensures QaStep(st, QuestionTag + " " + q) == QaState(Flush(st), q, [])
  {
    var line := QuestionTag + " " + q;
    assert line[..3] == QuestionTag;
    assert line[|line| - 1] == q[|q| - 1];
    StrippedIsFixpoint(line);
    assert line[3..] == [' '] + q;
    StripLeadingBlank(q);
  }

  /** A "回答: a" line replaces the current answer and nothing else. */
  lemma AnswerLineStep(st: QaState, a: string)
    requires a != [] && IsStripped(a)
    ensures QaStep(st, AnswerTag + " " + a) == st.(answer := a)
  {
    var line := AnswerTag + " " + a;
    assert line[..3] == AnswerTag;
    assert line[..3] != QuestionTag by { assert line[0] != QuestionTag[0]; }
    assert line[|line| - 1] == a[|a| - 1];
    StrippedIsFixpoint(line);
    assert line[3..] == [' '] + a;
    StripLeadingBlank(a);
  }

  lemma QaRunThree(l0: string, l1: string, l2: string)
    ensures QaRun([l0, l1, l2]) == QaStep(QaStep(QaStep(QaState([], [], []), l0), l1), l2)
  {
    var lines := [l0, l1, l2];
    assert lines[..2] == [l0, l1] && lines[..2][..1] == [l0] && lines[..1][..0] == [];
    assert QaRun([l0]) == QaStep(QaState([], [], []), l0);
    assert QaRun([l0, l1]) == QaStep(QaRun([l0]), l1);
  }

  /** A later "回答:" line replaces an earlier one. */
  lemma LaterAnswerWins(q: string, a1: string, a2: string)
    requires q != [] && IsStripped(q) && a1 != [] && IsStripped(a1) && a2 != [] && IsStripped(a2)
    ensures QaPairsFromLines([QuestionTag + " " + q, AnswerTag + " " + a1, AnswerTag + " " + a2]) == [QaPair(q, a2)]
  {
    QaRunThree(QuestionTag + " " + q, AnswerTag + " " + a1, AnswerTag + " " + a2);
    QuestionLineStep(QaState([], [], []), q);
    AnswerLineStep(QaState([], q, []), a1);
    AnswerLineStep(QaState([], q, a1), a2);
  }

  /** A question without an answer is dropped when the next question starts. */
  lemma UnansweredQuestionDropped(q1: string, q2: string, a: string)
    requires q1 != [] && IsStripped(q1) && q2 != [] && IsStripped(q2) && a != [] && IsStripped(a)
    ensures QaPairsFromLines([QuestionTag + " " + q1, QuestionTag + " " + q2, AnswerTag + " " + a]) == [QaPair(q2, a)]
  {
    QaRunThree(QuestionTag + " " + q1, QuestionTag + " " + q2, AnswerTag + " " + a);
    QuestionLineStep(QaState([], [], []), q1);
    QuestionLineStep(QaState([], q1, []), q2);
    AnswerLineStep(QaState([], q2, []), a);
  }

  /** The line loop shared by `generate_answer_examples` and `improve_answer_examples`. */
  method ParseQaPairs(responseText: string) returns (qaPairs: seq<QaPair>)
    ensures qaPairs == QaPairsFromLines(ReplyLines(responseText))
  {
    var lines := Split(Strip(responseText), "\n");
    qaPairs := [];
    var currentQuestion: string := [];
    var currentAnswer: string := [];
    var i := 0;
    while i < |lines|
      invariant 0 <= i <= |lines|
      invariant QaState(qaPairs, currentQuestion, currentAnswer) == QaRun(lines[..i])
    {
      assert lines[..i + 1][..i] == lines[..i];
      var line := Strip(lines[i]);
      if line != [] {
        if StartsWith(line, QuestionTag) {
          if currentQuestion != [] && currentAnswer != [] {
            qaPairs := qaPairs + [QaPair(currentQuestion, currentAnswer)];
          }
          currentQuestion := Strip(line[3..]);
          currentAnswer := [];
        } else if StartsWith(line, AnswerTag) {
          currentAnswer := Strip(line[3..]);
        }
      }
      i := i + 1;
    }
    if currentQuestion != [] && currentAnswer != [] {
      qaPairs := qaPairs + [QaPair(currentQuestion, currentAnswer)];
    }
    assert lines[..i] == lines;
  }

  /** `generate_answer_examples`: the parsed pairs, at most `maxAnswers` of them (Python slice). */
  method GenerateAnswerExamples(reply: Result<string, string>, maxAnswers: int) returns (r: seq<QaPair>)
    ensures reply.Err? ==> r == []
    ensures reply.Ok? ==> r == PyPrefix(QaPairsFromLines(ReplyLines(reply.value)), maxAnswers)
    ensures maxAnswers >= 0 ==> |r| <= maxAnswers
  {
    if reply.Err? {
      return [];
    }
    var pairs := ParseQaPairs(reply.value);
    r := PyPrefix(pairs, maxAnswers);
  }

  /** `improve_answer_examples`: the parsed pairs, uncapped; the old ones when the call fails. */
  method ImproveAnswerExamples(reply: Result<string, string>, existingPairs: seq<QaPair>) returns (r: seq<QaPair>)
    ensures reply.Err? ==> r == existingPairs
    ensures reply.Ok? ==> r == QaPairsFromLines(ReplyLines(reply.value))
  {
    if reply.Err? {
      return existingPairs;
    }
    r := ParseQaPairs(reply.value);
  }
}
