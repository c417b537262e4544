/**
 * The two exporters of the Vite front end: each builds a string by
 * appending a header and, for each non-empty group, a section heading and
 * one numbered block per task.  The methods accumulate the string as the
 * source does; the functions next to them say what the result is.
 */
module Export {
  import opened Tasks

  /** The `featureInfo` the exporter is given. */
  datatype FeatureInfo = FeatureInfo(goal: string, users: string, constraints: string)

  datatype Format = Markdown | PlainText

  function Digit(d: nat): (c: char)
    requires d < 10
    ensures '0' <= c <= '9' && c as int - '0' as int == d
  {
    "0123456789"[d]
  }

  /**
   * The number a string of decimal digits denotes, read most significant
   * digit first (a character below '0' counts as 0; only digits are read here).
   */
  function DecimalValue(s: string): nat
  {
    if s == [] then 0
    else
      var d := s[|s| - 1] as int - '0' as int;
      DecimalValue(s[..|s| - 1]) * 10 + (if 0 <= d then d else 0)
  }

  /** The decimal text of `n`, as `${n}` writes it: reading it back gives `n`. */
  function NatToString(n: nat): (s: string)
    ensures |s| >= 1
    ensures forall k :: 0 <= k < |s| ==> '0' <= s[k] <= '9'
    ensures n >= 10 ==> s[0] != '0'
    ensures s[0] == '0' ==> |s| == 1
    ensures DecimalValue(s) == n
  {
    if n < 10 then [Digit(n)]
    else
      var s := NatToString(n / 10) + [Digit(n % 10)];
      assert s[..|s| - 1] == NatToString(n / 10);
      s
  }

  /** `c.repeat(n)`. */
  function Repeat(c: char, n: nat): (s: string)
    ensures |s| == n
    ensures forall k :: 0 <= k < n ==> s[k] == c
  {
    if n == 0 then [] else Repeat(c, n - 1) + [c]
  }

  /** The width of the rules under the plain-text title and section headings. */
  const RuleWidth: nat := 60

  /** What surrounds a title in a list item: bold markers in Markdown, nothing in plain text. */
  function Emphasis(format: Format): string
  {
    if format == Markdown then "**" else ""
  }

  /**
   * The block one task contributes, numbered `n`: `{n}. **{title}**` then
   * the indented description in Markdown, `{n}. {title}` then the indented
   * description in plain text, and a blank line after either.
   */
  function ItemBlock(format: Format, n: nat, t: Task): string
  {
    var e := Emphasis(format);
    NatToString(n) + ". " + e + t.title + e + "\n   " + t.description + "\n\n"
  }

  /** The blocks of `ts`, numbered 1 to |ts| in list order. */
  function Items(format: Format, ts: seq<Task>): string
  {
    if ts == [] then "" else Items(format, ts[..|ts| - 1]) + ItemBlock(format, |ts|, ts[|ts| - 1])
  }

  /** Rendering one more task appends its block, numbered by its position. */
  lemma ItemsStep(format: Format, ts: seq<Task>, idx: nat)
    requires idx < |ts|
    ensures Items(format, ts[..idx + 1]) == Items(format, ts[..idx]) + ItemBlock(format, idx + 1, ts[idx])
  {
    assert ts[..idx + 1][..idx] == ts[..idx];
  }

  /**
   * Numbering and order: the blocks of the first k tasks followed by the
   * block of task k, numbered k + 1, begin the rendering of the whole list.
   */
  lemma {:induction false} ItemNumbered(format: Format, ts: seq<Task>, k: nat)
    requires k < |ts|
    ensures Items(format, ts[..k]) + ItemBlock(format, k + 1, ts[k]) <= Items(format, ts)
    decreases |ts|
  {
    var n := |ts| - 1;
    assert ts[..n] == ts[..|ts| - 1];
    if k == n {
      assert ts[..k + 1] == ts;
    } else {
      ItemNumbered(format, ts[..n], k);
      assert ts[..n][..k] == ts[..k] && ts[..n][k] == ts[k];
    }
  }

  /** The title line and the feature details, goal, users, constraints. */
  function MarkdownHeader(info: FeatureInfo): string
  {
    ("# Tasks for: " + info.goal + "\n\n")
    + "## Feature Details\n"
    + ("- **Goal**: " + info.goal + "\n")
    + ("- **Users**: " + info.users + "\n")
    + ("- **Constraints**: " + info.constraints + "\n\n")
  }

  const UserStoriesHeading: string := "## User Stories\n\n"
  const EngineeringTasksHeading: string := "## Engineering Tasks\n\n"

  /** A heading followed by its numbered blocks, or nothing for an empty group. */
  function Section(format: Format, heading: string, ts: seq<Task>): string
  {
    if |ts| > 0 then heading + Items(format, ts) else ""
  }

  /** What `generateMarkdown` returns. */
  function MarkdownDocument(tasks: TaskSet, info: FeatureInfo): string
  {
    MarkdownHeader(info)
    + Section(Markdown, UserStoriesHeading, tasks.userStories)
    + Section(Markdown, EngineeringTasksHeading, tasks.engineeringTasks)
  }

  /** A rule of `RuleWidth` copies of `c`: `c.repeat(60)`. */
  function Rule(c: char): (s: string)
    ensures |s| == RuleWidth
    ensures forall k :: 0 <= k < |s| ==> s[k] == c
  {
    Repeat(c, RuleWidth)
  }

  function TextTitle(info: FeatureInfo): string
  {
    "TASKS FOR: " + info.goal + "\n"
  }

  /** The feature details block of the plain-text header. */
  function TextDetails(info: FeatureInfo): string
  {
    "FEATURE DETAILS\n"
    + ("Goal: " + info.goal + "\n")
    + ("Users: " + info.users + "\n")
    + ("Constraints: " + info.constraints + "\n\n")
  }

  function TextHeader(info: FeatureInfo): string
  {
    TextTitle(info) + (Rule('=') + "\n\n") + TextDetails(info)
  }

  const UserStoriesTitle: string := "USER STORIES\n"
  const EngineeringTasksTitle: string := "ENGINEERING TASKS\n"

  /** A plain-text section heading: its title line, then a rule of `-`. */
  function TextHeading(title: string): string
  {
    title + (Rule('-') + "\n")
  }

  /** What `generateText` returns. */
  function TextDocument(tasks: TaskSet, info: FeatureInfo): string
  {
    TextHeader(info)
    + Section(PlainText, TextHeading(UserStoriesTitle), tasks.userStories)
    + Section(PlainText, TextHeading(EngineeringTasksTitle), tasks.engineeringTasks)
  }

  /** Appending in three steps is appending the grouped whole. */
  lemma Regroup(h: string, a: string, b: string, c: string)
    ensures h + a + b + c == h + ((a + b) + c)
  {
  }

  /** Concatenation regroups freely. */
  lemma Associative(a: string, b: string, c: string)
    ensures a + b + c == a + (b + c)
  {
  }

  /** The `forEach` loop: appends one numbered block per task to `acc`. */
  method AppendItems(acc: string, format: Format, ts: seq<Task>) returns (out: string)
    ensures out == acc + Items(format, ts)
  {
    out := acc;
    var idx := 0;
    assert ts[..idx] == [];
    while idx < |ts|
      invariant 0 <= idx <= |ts|
      invariant out == acc + Items(format, ts[..idx])
    {
      var block := ItemBlock(format, idx + 1, ts[idx]);
      ItemsStep(format, ts, idx);
      Associative(acc, Items(format, ts[..idx]), block);
      out := out + block;
      idx := idx + 1;
    }
    assert ts[..idx] == ts;
  }

  /** `generateMarkdown`. */
  method GenerateMarkdown(tasks: TaskSet, info: FeatureInfo) returns (markdown: string)
    ensures markdown == MarkdownDocument(tasks, info)
  {
    markdown := "# Tasks for: " + info.goal + "\n\n";
    markdown := markdown + "## Feature Details\n";
    markdown := markdown + ("- **Goal**: " + info.goal + "\n");
    markdown := markdown + ("- **Users**: " + info.users + "\n");
    markdown := markdown + ("- **Constraints**: " + info.constraints + "\n\n");
    assert markdown == MarkdownHeader(info);
    if |tasks.userStories| > 0 {
      ghost var before := markdown;
      markdown := markdown + UserStoriesHeading;
      markdown := AppendItems(markdown, Markdown, tasks.userStories);
      Associative(before, UserStoriesHeading, Items(Markdown, tasks.userStories));
    }
    assert markdown == MarkdownHeader(info) + Section(Markdown, UserStoriesHeading, tasks.userStories);
    if |tasks.engineeringTasks| > 0 {
      ghost var before := markdown;
      markdown := markdown + EngineeringTasksHeading;
      markdown := AppendItems(markdown, Markdown, tasks.engineeringTasks);
      Associative(before, EngineeringTasksHeading, Items(Markdown, tasks.engineeringTasks));
    }
  }

  /** `generateText`. */
  method GenerateText(tasks: TaskSet, info: FeatureInfo) returns (text: string)
    ensures text == TextDocument(tasks, info)
  {
    text := "TASKS FOR: " + info.goal + "\n";
    text := text + (Rule('=') + "\n\n");
    text := text + "FEATURE DETAILS\n";
    text := text + ("Goal: " + info.goal + "\n");
    text := text + ("Users: " + info.users + "\n");
    text := text + ("Constraints: " + info.constraints + "\n\n");
    assert text == TextHeader(info) by {
      var top := TextTitle(info) + (Rule('=') + "\n\n");
      Regroup(top, "FEATURE DETAILS\n", "Goal: " + info.goal + "\n", "Users: " + info.users + "\n");
    }
    if |tasks.userStories| > 0 {
      ghost var before := text;
      text := text + UserStoriesTitle;
      text := text + (Rule('-') + "\n");
      text := AppendItems(text, PlainText, tasks.userStories);
      Regroup(before, UserStoriesTitle, Rule('-') + "\n", Items(PlainText, tasks.userStories));
    }
    assert text == TextHeader(info) + Section(PlainText, TextHeading(UserStoriesTitle), tasks.userStories);
    if |tasks.engineeringTasks| > 0 {
      ghost var before := text;
      text := text + EngineeringTasksTitle;
      text := text + (Rule('-') + "\n");
      text := AppendItems(text, PlainText, tasks.engineeringTasks);
      Regroup(before, EngineeringTasksTitle, Rule('-') + "\n", Items(PlainText, tasks.engineeringTasks));
    }
  }

  /**
   * The Markdown document opens with the title line and the feature details
   * in the order goal, users, constraints; with no tasks it is exactly that.
   */
  lemma MarkdownHeaderFirst(tasks: TaskSet, info: FeatureInfo)
    ensures MarkdownHeader(info) <= MarkdownDocument(tasks, info)
    ensures |tasks.userStories| == 0 && |tasks.engineeringTasks| == 0 ==>
              MarkdownDocument(tasks, info) == MarkdownHeader(info)
  {
  }

  /** A prefix of `a` is a prefix of anything that extends `a`. */
  lemma PrefixOfAppend(p: string, a: string, b: string)
    requires p <= a
    ensures p <= a + b
  {
    assert (a + b)[..|a|] == a;
  }

  /** The plain-text document opens with the title line and a rule of `RuleWidth` `=`. */
  lemma TextTitleRule(tasks: TaskSet, info: FeatureInfo)
    ensures TextTitle(info) + Rule('=') + "\n" <= TextDocument(tasks, info)
  {
    PrefixOfAppend(TextTitle(info) + Rule('=') + "\n", TextTitle(info) + (Rule('=') + "\n\n"), TextDetails(info));
    PrefixOfAppend(TextTitle(info) + Rule('=') + "\n", TextHeader(info),
                   Section(PlainText, TextHeading(UserStoriesTitle), tasks.userStories)
                   + Section(PlainText, TextHeading(EngineeringTasksTitle), tasks.engineeringTasks));
  }

  /** Two strings that differ at index `k` cannot both begin a third. */
  lemma DifferentOpenings(p: string, q: string, k: nat, x: string)
    requires k < |p| && k < |q| && p[k] != q[k]
    ensures !(p <= q + x)
  {
    assert (q + x)[k] == q[k];
  }

  /**
   * Section presence in a document made of a header and two sections:
   * right after the header comes the first heading exactly when the first
   * group has tasks, and right after the first section comes the second
   * heading exactly when the second group has tasks.
   */
  lemma TwoSections(format: Format, header: string, h1: string, ts1: seq<Task>,
                    h2: string, ts2: seq<Task>, k: nat)
    requires k < |h1| && k < |h2| && h1[k] != h2[k]
    ensures var doc := header + Section(format, h1, ts1) + Section(format, h2, ts2);
            h1 <= doc[|header|..] <==> |ts1| > 0
    ensures var doc := header + Section(format, h1, ts1) + Section(format, h2, ts2);
            h2 <= doc[|header| + |Section(format, h1, ts1)|..] <==> |ts2| > 0
  {
    var s1 := Section(format, h1, ts1);
    var s2 := Section(format, h2, ts2);
    var doc := header + s1 + s2;
    assert doc[|header|..] == s1 + s2;
    assert doc[|header| + |s1|..] == s2;
    if |ts1| > 0 {
      PrefixOfAppend(h1, s1, s2);
    } else {
      assert s1 + s2 == s2;
      if |ts2| > 0 {
        DifferentOpenings(h1, h2, k, Items(format, ts2));
      }
    }
    if |ts2| > 0 {
      PrefixOfAppend(h2, h2, Items(format, ts2));
    }
  }

  /**
   * The Markdown document has its "User Stories" section right after the
   * header exactly when there are user stories, and its "Engineering Tasks"
   * section right after that exactly when there are engineering tasks.
   */
  lemma MarkdownSectionsIffNonEmpty(tasks: TaskSet, info: FeatureInfo)
    ensures var doc := MarkdownDocument(tasks, info);
            UserStoriesHeading <= doc[|MarkdownHeader(info)|..] <==> |tasks.userStories| > 0
    ensures var doc := MarkdownDocument(tasks, info);
            var h := |MarkdownHeader(info)| + |Section(Markdown, UserStoriesHeading, tasks.userStories)|;
            EngineeringTasksHeading <= doc[h..] <==> |tasks.engineeringTasks| > 0
  {
    TwoSections(Markdown, MarkdownHeader(info), UserStoriesHeading, tasks.userStories,
                EngineeringTasksHeading, tasks.engineeringTasks, 3);
  }

  /**
   * The plain-text document has its "USER STORIES" heading, ruled with
   * `RuleWidth` `-`, right after the header exactly when there are user
   * stories, and its "ENGINEERING TASKS" heading right after that section
   * exactly when there are engineering tasks.
   */
  lemma TextSectionsIffNonEmpty(tasks: TaskSet, info: FeatureInfo)
    ensures var doc := TextDocument(tasks, info);
            TextHeading(UserStoriesTitle) <= doc[|TextHeader(info)|..] <==> |tasks.userStories| > 0
    ensures var doc := TextDocument(tasks, info);
            var h := |TextHeader(info)| + |Section(PlainText, TextHeading(UserStoriesTitle), tasks.userStories)|;
            TextHeading(EngineeringTasksTitle) <= doc[h..] <==> |tasks.engineeringTasks| > 0
  {
    TwoSections(PlainText, TextHeader(info), TextHeading(UserStoriesTitle), tasks.userStories,
                TextHeading(EngineeringTasksTitle), tasks.engineeringTasks, 0);
  }
}
