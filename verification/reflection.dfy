/** The reflection text builder (frontend/src/services/ai.js): each log field
    is shortened, empty fields get fixed placeholders, and the result is a
    fixed template of three reflection lines, a heading, four questions and a
    closing sentence. */
module Reflection {
  import opened Logs

  const Ellipsis := "…"

  /** The budget `trimText` uses when the caller gives none. */
  const DefaultLimit := 80

  /** The budget `analyzeLog` gives every field. */
  const FieldLimit := 100

  /** `trimText`: empty text stays empty, text within the limit is returned
      as is, and longer text is cut to `limit` characters plus an ellipsis. */
  function TrimText(text: string, limit: nat := DefaultLimit): (r: string)
    ensures text == "" ==> r == ""
    ensures |text| <= limit ==> r == text
    ensures |text| > limit ==> r == text[..limit] + Ellipsis && |r| == limit + 1
    ensures |r| <= limit + 1
    ensures r == "" <==> text == ""
  {
    if text == "" then ""
    else if |text| > limit then text[..limit] + Ellipsis
    else text
  }

  /** Trimming twice with the same limit is trimming once. */
  lemma TrimTextIdempotent(text: string, limit: nat)
    ensures TrimText(TrimText(text, limit), limit) == TrimText(text, limit)
  {
  }

  /** `x || placeholder` on a string. */
  function OrElse(s: string, placeholder: string): (r: string)
    ensures s != "" ==> r == s
    ensures s == "" ==> r == placeholder
  {
    if s == "" then placeholder else s
  }

  /** The text each template slot shows. */
  datatype Shown = Shown(
    eventInQuestion: string,
    eventInReflection: string,
    feelings: string,
    thoughts: string,
    behaviors: string,
    consequences: string)

  /** The trimmed fields with their placeholders. A trimmed field is empty only
      when the field itself is, so a placeholder appears exactly for an empty
      field. */
  function ShownFields(log: LogEntry): (r: Shown)
    ensures log.event == "" ==> r.eventInQuestion == "这个情境" && r.eventInReflection == "这个事件"
    ensures log.event != "" ==> r.eventInQuestion == r.eventInReflection == TrimText(log.event, FieldLimit)
    ensures log.feelings == "" ==> r.feelings == "复杂的情绪"
    ensures log.feelings != "" ==> r.feelings == TrimText(log.feelings, FieldLimit)
    ensures log.thoughts == "" ==> r.thoughts == "..."
    ensures log.thoughts != "" ==> r.thoughts == TrimText(log.thoughts, FieldLimit)
    ensures log.behaviors == "" ==> r.behaviors == "..."
    ensures log.behaviors != "" ==> r.behaviors == TrimText(log.behaviors, FieldLimit)
    ensures log.consequences == "" ==> r.consequences == "..."
    ensures log.consequences != "" ==> r.consequences == TrimText(log.consequences, FieldLimit)
  {
    var event := TrimText(log.event, FieldLimit);
    var feelings := TrimText(log.feelings, FieldLimit);
    var thoughts := TrimText(log.thoughts, FieldLimit);
    var behaviors := TrimText(log.behaviors, FieldLimit);
    var consequences := TrimText(log.consequences, FieldLimit);
    Shown(
      OrElse(event, "这个情境"),
      OrElse(event, "这个事件"),
      OrElse(feelings, "复杂的情绪"),
      OrElse(thoughts, "..."),
      OrElse(behaviors, "..."),
      OrElse(consequences, "..."))
  }

  function ReflectionLines(f: Shown): seq<string> {
    [ "我听见你提到在「" + f.eventInReflection + "」中经历了「" + f.feelings + "」。",
      "这些情绪似乎和你的想法「" + f.thoughts + "」彼此呼应，影响到你当时的反应。",
      "我们可以慢慢探索，当感受到这些情绪时，你最需要的支持或资源是什么。" ]
  }

  function Questions(f: Shown): seq<string> {
    [ "当你回顾「" + f.eventInQuestion + "」时，哪些感受最想被看见？",
      "在那些想法（例如「" + f.thoughts + "」）之下，是否藏着某些更深的期待或担心？",
      "如果再次面对类似的经历，你希望自己的行为或选择（比如「" + f.behaviors + "」）有哪些不同？",
      "这些后果（例如「" + f.consequences + "」）带给你什么提醒？" ]
  }

  const Heading := "可以试着想一想："

  const Closing := "如果愿意，你也可以把新的观察写进下一篇日志里，我们再继续一起整理。"

  /** `Array.prototype.join` with a one-character separator. */
  function Join(parts: seq<string>, sep: char): string {
    if parts == [] then ""
    else if |parts| == 1 then parts[0]
    else parts[0] + [sep] + Join(parts[1..], sep)
  }

  /** `analyzeLog`, without its artificial delay: the reflection lines joined
      by newlines, a blank line, the heading, the four questions as bullets, a
      blank line and the closing sentence. */
  function AnalyzeLog(log: LogEntry): (r: string)
    ensures |r| > |Closing| && r[|r| - |Closing|..] == Closing
  {
    var f := ShownFields(log);
    var q := Questions(f);
    Join(ReflectionLines(f), '\n') + "\n" + "\n" + Heading
      + "\n" + "- " + q[0] + "\n" + "- " + q[1] + "\n" + "- " + q[2] + "\n" + "- " + q[3]
      + "\n" + "\n" + Closing
  }

  // ---------------------------------------------------------------------
  // Line structure of the result

  /** `s.split('\n')`. */
  function Lines(s: string): (r: seq<string>)
    ensures |r| >= 1
  {
    if s == [] then [""]
    else
      var rest := Lines(s[1..]);
      if s[0] == '\n' then [""] + rest
      else [[s[0]] + rest[0]] + rest[1..]
  }

  lemma {:induction false} LinesSingle(a: string)
    requires '\n' !in a
    ensures Lines(a) == [a]
    decreases |a|
  {
    if a != [] {
      assert '\n' !in a[1..] by {
        forall k | 0 <= k < |a[1..]| ensures a[1..][k] != '\n' {
          assert a[1..][k] == a[k + 1];
        }
      }
      LinesSingle(a[1..]);
      assert [a[0]] + a[1..] == a;
    }
  }

  /** Splitting a concatenation at a newline splits the two halves. */
  lemma {:induction false} LinesSep(a: string, b: string)
    ensures Lines(a + "\n" + b) == Lines(a) + Lines(b)
    decreases |a|
  {
    if a == [] {
      assert a + "\n" + b == "\n" + b;
      assert ("\n" + b)[1..] == b;
    } else {
      assert (a + "\n" + b)[1..] == a[1..] + "\n" + b;
      assert (a + "\n" + b)[0] == a[0];
      LinesSep(a[1..], b);
    }
  }

  /** No placeholder and no trimmed field of a one-line log holds a newline. */
  predicate SingleLine(log: LogEntry) {
    && '\n' !in log.event
    && '\n' !in log.feelings
    && '\n' !in log.thoughts
    && '\n' !in log.behaviors
    && '\n' !in log.consequences
  }

  /** The template laid out as its lines: the reflection, a blank line, the
      heading, the four questions as bullets, a blank line and the closing. */
  function OutputLines(f: Shown): (r: seq<string>)
    ensures |r| == 11
  {
    var q := Questions(f);
    ReflectionLines(f) + ["", Heading, "- " + q[0], "- " + q[1], "- " + q[2], "- " + q[3], "", Closing]
  }

  /** Regrouping the template around its newlines. */
  lemma Regroup(j: string, n: string, h: string, d: string, q0: string, q1: string, q2: string, q3: string, c: string)
    ensures j + n + n + h + n + d + q0 + n + d + q1 + n + d + q2 + n + d + q3 + n + n + c
         == j + n + ("" + n + (h + n + ((d + q0) + n + ((d + q1) + n + ((d + q2) + n + ((d + q3) + n + ("" + n + c)))))))
  {
  }

  /** Joining a non-empty part list onto one more part. */
  lemma JoinCons(a: string, rest: seq<string>, sep: char)
    requires rest != []
    ensures Join([a] + rest, sep) == a + [sep] + Join(rest, sep)
  {
    assert ([a] + rest)[1..] == rest;
  }

  /** Joining a concatenation puts one separator between the two joins. */
  lemma {:induction false} JoinConcat(a: seq<string>, b: seq<string>, sep: char)
    requires a != [] && b != []
    ensures Join(a + b, sep) == Join(a, sep) + [sep] + Join(b, sep)
    decreases |a|
  {
    if |a| == 1 {
      assert a + b == [a[0]] + b;
      JoinCons(a[0], b, sep);
    } else {
      assert a + b == [a[0]] + (a[1..] + b);
      JoinCons(a[0], a[1..] + b, sep);
      JoinConcat(a[1..], b, sep);
      assert a == [a[0]] + a[1..];
      JoinCons(a[0], a[1..], sep);
    }
  }

  /** The template after the reflection, joined by newlines, nested to the
      right. */
  lemma TemplateJoin(h: string, b0: string, b1: string, b2: string, b3: string, c: string)
    ensures Join(["", h, b0, b1, b2, b3, "", c], '\n')
         == "" + "\n" + (h + "\n" + (b0 + "\n" + (b1 + "\n" + (b2 + "\n" + (b3 + "\n" + ("" + "\n" + c))))))
  {
    JoinCons("", [c], '\n');
    JoinCons(b3, ["", c], '\n');
    JoinCons(b2, [b3, "", c], '\n');
    JoinCons(b1, [b2, b3, "", c], '\n');
    JoinCons(b0, [b1, b2, b3, "", c], '\n');
    JoinCons(h, [b0, b1, b2, b3, "", c], '\n');
    JoinCons("", [h, b0, b1, b2, b3, "", c], '\n');
  }

  /** For every log, the result is the template's eleven lines joined by
      newlines: the three reflection lines, a blank line, the heading, the
      four questions as bullets, a blank line and the closing. */
  lemma AnalyzeLogLayout(log: LogEntry)
    ensures AnalyzeLog(log) == Join(OutputLines(ShownFields(log)), '\n')
  {
    var f := ShownFields(log);
    var q := Questions(f);
    var rl := ReflectionLines(f);
    var tail := ["", Heading, "- " + q[0], "- " + q[1], "- " + q[2], "- " + q[3], "", Closing];
    assert OutputLines(f) == rl + tail;
    JoinConcat(rl, tail, '\n');
    TemplateJoin(Heading, "- " + q[0], "- " + q[1], "- " + q[2], "- " + q[3], Closing);
    Regroup(Join(rl, '\n'), "\n", Heading, "- ", q[0], q[1], q[2], q[3], Closing);
  }

  lemma NoNewlineConcat(a: string, b: string)
    requires '\n' !in a && '\n' !in b
    ensures '\n' !in a + b
  {
  }

  /** A slot text between two fixed pieces stays on one line. */
  lemma NoNewlineAround(pre: string, x: string, post: string)
    requires '\n' !in pre && '\n' !in x && '\n' !in post
    ensures '\n' !in pre + x + post
  {
  }

  predicate ShownSingleLine(f: Shown) {
    && '\n' !in f.eventInQuestion && '\n' !in f.eventInReflection && '\n' !in f.feelings
    && '\n' !in f.thoughts && '\n' !in f.behaviors && '\n' !in f.consequences
  }

  lemma ReflectionLinesSingle(f: Shown)
    requires ShownSingleLine(f)
    ensures '\n' !in ReflectionLines(f)[0]
    ensures '\n' !in ReflectionLines(f)[1]
    ensures '\n' !in ReflectionLines(f)[2]
  {
    ReflectionTextSingleLine0();
    ReflectionTextSingleLine1();
    ReflectionTextSingleLine2();
    ReflectionTextSingleLine3();
    NoNewlineAround("我听见你提到在「", f.eventInReflection, "」中经历了「");
    NoNewlineAround("我听见你提到在「" + f.eventInReflection + "」中经历了「", f.feelings, "」。");
    NoNewlineAround("这些情绪似乎和你的想法「", f.thoughts, "」彼此呼应，影响到你当时的反应。");
  }

  // The fixed text of the template holds no newline; one lemma per piece
  // keeps each check small.

  lemma QuestionTextSingleLine0()
    ensures '\n' !in "当你回顾「" && '\n' !in "」时，哪些感受最想被看见？"
  {
  }

  lemma QuestionTextSingleLine1()
    ensures '\n' !in "在那些想法（例如「" && '\n' !in "」）之下，是否藏着某些更深的期待或担心？"
  {
  }

  lemma QuestionTextSingleLine2()
    ensures '\n' !in "如果再次面对类似的经历，你希望自己的行为或选择（比如「" && '\n' !in "」）有哪些不同？"
  {
  }

  lemma QuestionTextSingleLine3()
    ensures '\n' !in "这些后果（例如「" && '\n' !in "」）带给你什么提醒？"
  {
  }

  lemma ReflectionTextSingleLine0()
    ensures '\n' !in "我听见你提到在「" && '\n' !in "」中经历了「"
  {
  }

  lemma ReflectionTextSingleLine1()
    ensures '\n' !in "」。"
  {
  }

  lemma ReflectionTextSingleLine2()
    ensures '\n' !in "这些情绪似乎和你的想法「" && '\n' !in "」彼此呼应，影响到你当时的反应。"
  {
  }

  lemma ReflectionTextSingleLine3()
    ensures '\n' !in "我们可以慢慢探索，当感受到这些情绪时，你最需要的支持或资源是什么。"
  {
  }

  lemma BulletsSingle(f: Shown)
    requires ShownSingleLine(f)
    ensures '\n' !in "- " + Questions(f)[0]
    ensures '\n' !in "- " + Questions(f)[1]
    ensures '\n' !in "- " + Questions(f)[2]
    ensures '\n' !in "- " + Questions(f)[3]
  {
    QuestionTextSingleLine0();
    QuestionTextSingleLine1();
    QuestionTextSingleLine2();
    QuestionTextSingleLine3();
    Bullet("当你回顾「", f.eventInQuestion, "」时，哪些感受最想被看见？");
    Bullet("在那些想法（例如「", f.thoughts, "」）之下，是否藏着某些更深的期待或担心？");
    Bullet("如果再次面对类似的经历，你希望自己的行为或选择（比如「", f.behaviors, "」）有哪些不同？");
    Bullet("这些后果（例如「", f.consequences, "」）带给你什么提醒？");
  }

  /** A question with its bullet marker stays on one line. */
  lemma Bullet(pre: string, x: string, post: string)
    requires '\n' !in pre && '\n' !in x && '\n' !in post
    ensures '\n' !in "- " + (pre + x + post)
  {
    NoNewlineAround(pre, x, post);
    NoNewlineConcat("- ", pre + x + post);
  }

  lemma ShownFieldsSingleLine(log: LogEntry)
    requires SingleLine(log)
    ensures ShownSingleLine(ShownFields(log))
  {
  }

  lemma FixedTextSingleLine()
    ensures '\n' !in Heading && '\n' !in Closing
  {
  }

  /** For a log whose fields are single lines, the result splits into the three
      reflection lines, a blank line, the heading, the four questions each as a
      bullet, a blank line and the closing sentence. */
  lemma AnalyzeLogLines(log: LogEntry)
    requires SingleLine(log)
    ensures Lines(AnalyzeLog(log)) == OutputLines(ShownFields(log))
  {
    var f := ShownFields(log);
    ShownFieldsSingleLine(log);
    FixedTextSingleLine();
    ReflectionLinesSingle(f);
    BulletsSingle(f);
    AnalyzeLogLayout(log);
    var out := OutputLines(f);
    assert forall i :: 0 <= i < |out| ==> '\n' !in out[i] by {
      forall i | 0 <= i < |out| ensures '\n' !in out[i] {
        if i < 3 { assert out[i] == ReflectionLines(f)[i]; }
      }
    }
    LinesOfJoin(out);
  }

  /** Splitting undoes joining when no part holds a newline. */
  lemma {:induction false} LinesOfJoin(parts: seq<string>)
    requires parts != []
    requires forall i :: 0 <= i < |parts| ==> '\n' !in parts[i]
    ensures Lines(Join(parts, '\n')) == parts
    decreases |parts|
  {
    if |parts| == 1 {
      LinesSingle(parts[0]);
    } else {
      LinesOfJoin(parts[1..]);
      LinesSep(parts[0], Join(parts[1..], '\n'));
      LinesSingle(parts[0]);
      assert [parts[0]] + parts[1..] == parts;
    }
  }

  /** The result reads only the first hundred characters of each field: the
      log with every field already trimmed gives the same text. */
  lemma AnalyzeSeesOnlyTrimmed(log: LogEntry)
    ensures AnalyzeLog(log) == AnalyzeLog(log.(
      event := TrimText(log.event, FieldLimit),
      feelings := TrimText(log.feelings, FieldLimit),
      thoughts := TrimText(log.thoughts, FieldLimit),
      behaviors := TrimText(log.behaviors, FieldLimit),
      consequences := TrimText(log.consequences, FieldLimit)))
  {
    TrimTextIdempotent(log.event, FieldLimit);
    TrimTextIdempotent(log.feelings, FieldLimit);
    TrimTextIdempotent(log.thoughts, FieldLimit);
    TrimTextIdempotent(log.behaviors, FieldLimit);
    TrimTextIdempotent(log.consequences, FieldLimit);
    var trimmed := log.(
      event := TrimText(log.event, FieldLimit),
      feelings := TrimText(log.feelings, FieldLimit),
      thoughts := TrimText(log.thoughts, FieldLimit),
      behaviors := TrimText(log.behaviors, FieldLimit),
      consequences := TrimText(log.consequences, FieldLimit));
    assert ShownFields(trimmed) == ShownFields(log);
  }
}
