/**
 * The classification client of src/lib/queries.ts: `tagData` cuts its input
 * down to the vendor's limit of 96 texts and sends it, together with a fixed
 * table of labelled examples, to the hosted classifier. The classifier itself
 * is an oracle: a total function from the inputs it receives to either a list
 * of classifications or a thrown error.
 */
module Classifier {
  import opened Types

  /** The largest number of inputs one classification request may carry. */
  const MaxInputs: nat := 96

  /** The object the batch writer serialises and sends as one classifier input. */
  datatype Snippet = Snippet(title: string, conversationId: string)

  /** One entry of the classifier's answer; `prediction` may be missing. */
  datatype Classification = Classification(prediction: Option<string>)

  /** The hosted `classify` call, seen from outside. */
  type Classify = seq<Snippet> -> Attempt<seq<Classification>>

  /** One labelled example of the few-shot table. */
  datatype Example = Example(text: string, category: string)

  /** The inputs `tagData` actually sends: the first 96 of `data`, in order. */
  function TagInputs(data: seq<Snippet>): (cut: seq<Snippet>)
    ensures |cut| == if |data| <= MaxInputs then |data| else MaxInputs
    ensures forall i | 0 <= i < |cut| :: cut[i] == data[i]
  {
    if |data| <= MaxInputs then data else data[..MaxInputs]
  }

  /**
   * `tagData(data)`: one classifier request carrying the cut inputs. The
   * example table below goes with every request unchanged, so it is part of
   * what `classify` stands for rather than an argument of it.
   * Inputs within the limit reach the classifier whole; nothing beyond the
   * 96th ever does.
   */
  function TagData(data: seq<Snippet>, classify: Classify): (r: Attempt<seq<Classification>>)
    ensures |data| <= MaxInputs ==> r == classify(data)
    ensures |data| > MaxInputs ==> r == classify(data[..MaxInputs])
  {
    classify(TagInputs(data))
  }

  /**
   * The few-shot example table sent with every request, in the source's order.
   * It is written as five consecutive runs of ten entries (the solver indexes
   * a short literal far more cheaply than one of fifty); `Examples` joins them
   * into the single flat list the source sends.
   */
  const Examples: seq<Example> :=
    ExamplesRun1 + ExamplesRun2 + ExamplesRun3 + ExamplesRun4 + ExamplesRun5

  const ExamplesRun1: seq<Example> := [
    Example("Discussions about technology, gadgets, programming, etc.", "Tech"),
    Example("Software development, tech trends, and innovations.", "Tech"),
    Example("Topics related to learning, studying, and academic subjects.", "Education"),
    Example("Online courses, study tips, and educational resources.", "Education"),
    Example("Conversations about physical or mental health, fitness, wellness.", "Health"),
    Example("Nutrition, exercise routines, and mental health tips.", "Health"),
    Example("Movies, music, books, games, and other forms of entertainment.", "Entertainment"),
    Example("TV shows, music reviews, and gaming experiences.", "Entertainment"),
    Example("Destinations, travel tips, experiences, and related discussions.", "Travel"),
    Example("Travel itineraries, destination guides, and travel hacks.", "Travel")
  ]

  const ExamplesRun2: seq<Example> := [
    Example("Recipes, dining experiences, culinary preferences.", "Food"),
    Example("Restaurant reviews, cooking techniques, and food trends.", "Food"),
    Example("Professional development, job advice, career goals.", "Career"),
    Example("Job applications, career planning, and professional skills.", "Career"),
    Example("Personal relationships, social interactions, advice.", "Relationships"),
    Example("Relationship advice, social dynamics, and communication skills.", "Relationships"),
    Example("Budgeting, investing, economic discussions.", "Finance"),
    Example("Financial planning, investment strategies, and market trends.", "Finance"),
    Example("Daily routines, hobbies, personal interests.", "Lifestyle"),
    Example("Home organization, hobbies, and lifestyle choices.", "Lifestyle")
  ]

  const ExamplesRun3: seq<Example> := [
    Example("Scientific topics, discoveries, experiments.", "Science"),
    Example("Research findings, scientific theories, and new inventions.", "Science"),
    Example("News, trends, and recent developments.", "Current Events"),
    Example("Global events, political updates, and societal changes.", "Current Events"),
    Example("Personal growth, productivity tips, motivation.", "Self-Improvement"),
    Example("Self-help strategies, personal development, and motivational content.", "Self-Improvement"),
    Example("Cultural events, practices, and traditions.", "Culture"),
    Example("Cultural norms, historical practices, and traditions.", "Culture"),
    Example("Discussions on sustainability, nature, and ecology.", "Environment"),
    Example("Conservation efforts, environmental policies, and nature conservation.", "Environment")
  ]

  const ExamplesRun4: seq<Example> := [
    Example("Issues, troubleshooting, and software bugs.", "Bug Fixes"),
    Example("Error resolution, debugging techniques, and software troubleshooting.", "Bug Fixes"),
    Example("Time management, efficiency, and tools.", "Productivity"),
    Example("Productivity hacks, time-saving tools, and work efficiency.", "Productivity"),
    Example("Graphic design, UI/UX, aesthetics.", "Design"),
    Example("Visual design, user experience improvements, and design principles.", "Design"),
    Example("Strategies, campaigns, and promotions.", "Marketing"),
    Example("Advertising tactics, market research, and promotional strategies.", "Marketing"),
    Example("Programming languages, code snippets, development. Data Structures, Algorithms, and Design Patterns.", "Coding"),
    Example("Cloud, Aws, Mobile App Development, and Mobile Development, Web App Development, Error handling, and troubleshooting.", "Coding")
  ]

  const ExamplesRun5: seq<Example> := [
    Example("Data analysis, experiments, findings.", "Research"),
    Example("Scientific studies, data interpretation, and academic research.", "Research"),
    Example("Reviews, comments, suggestions.", "Feedback"),
    Example("Product reviews, user comments, and feedback collection.", "Feedback"),
    Example("Forums, groups, and social interactions.", "Community"),
    Example("Online communities, group discussions, and social platforms.", "Community"),
    Example("Cybersecurity, data protection, and privacy.", "Security"),
    Example("Information security, data breaches, and protection measures.", "Security"),
    Example("Other.", "Other"),
    Example("Other that dont fit in the above categories.", "Other")
  ]

  /** The distinct labels of the table, in order of first appearance. */
  const Categories: seq<string> := [
    "Tech", "Education", "Health", "Entertainment", "Travel", "Food", "Career", "Relationships", "Finance", "Lifestyle", "Science", "Current Events", "Self-Improvement", "Culture", "Environment", "Bug Fixes", "Productivity", "Design", "Marketing", "Coding", "Research", "Feedback", "Community", "Security", "Other"
  ]

  /** How many examples of `ex` carry category `l`. */
  function LabelCount(ex: seq<Example>, l: string): (n: nat)
    ensures n <= |ex|
    ensures n == 0 <==> forall e | e in ex :: e.category != l
  {
    if ex == [] then 0 else (if ex[0].category == l then 1 else 0) + LabelCount(ex[1..], l)
  }

  ghost predicate Distinct(cats: seq<string>) {
    forall i, j | 0 <= i < j < |cats| :: cats[i] != cats[j]
  }

  /** `ex` lists every label of `cats` twice in a row, in the order of `cats`. */
  ghost predicate PairedWith(ex: seq<Example>, cats: seq<string>) {
    && |ex| == 2 * |cats|
    && forall i | 0 <= i < |cats| :: ex[2 * i].category == cats[i] && ex[2 * i + 1].category == cats[i]
  }

  lemma {:induction false} PairedCounts(ex: seq<Example>, cats: seq<string>, l: string)
    requires PairedWith(ex, cats) && Distinct(cats)
    ensures LabelCount(ex, l) == if l in cats then 2 else 0
  {
    if cats != [] {
      var rest, more := ex[2..], cats[1..];
      forall i | 0 <= i < |more|
        ensures rest[2 * i].category == more[i] && rest[2 * i + 1].category == more[i]
      {
        assert rest[2 * i] == ex[2 * (i + 1)] && rest[2 * i + 1] == ex[2 * (i + 1) + 1];
      }
      assert Distinct(more) by {
        forall i, j | 0 <= i < j < |more| ensures more[i] != more[j] {
          assert more[i] == cats[i + 1] && more[j] == cats[j + 1];
        }
      }
      PairedCounts(rest, more, l);
      assert ex[1..][1..] == rest;
      assert ex[0].category == cats[0] && ex[1].category == cats[0];
      assert l in cats <==> l == cats[0] || l in more by {
        assert cats == [cats[0]] + more;
      }
      assert cats[0] !in more by {
        forall j | 0 <= j < |more| ensures more[j] != cats[0] {
          assert more[j] == cats[j + 1];
        }
      }
    }
  }

  lemma {:induction false} PairedAppend(ex1: seq<Example>, cats1: seq<string>, ex2: seq<Example>, cats2: seq<string>)
    requires PairedWith(ex1, cats1) && PairedWith(ex2, cats2)
    ensures PairedWith(ex1 + ex2, cats1 + cats2)
  {
    var ex, cats := ex1 + ex2, cats1 + cats2;
    forall i | |cats1| <= i < |cats|
      ensures ex[2 * i].category == cats[i] && ex[2 * i + 1].category == cats[i]
    {
      var k := i - |cats1|;
      assert ex[2 * i] == ex2[2 * k] && ex[2 * i + 1] == ex2[2 * k + 1];
      assert cats[i] == cats2[k];
    }
  }

  lemma Run1IsPaired()
    ensures PairedWith(ExamplesRun1, Categories[..5])
  {
  }

  lemma Run2IsPaired()
    ensures PairedWith(ExamplesRun2, Categories[5..10])
  {
  }

  lemma Run3IsPaired()
    ensures PairedWith(ExamplesRun3, Categories[10..15])
  {
  }

  lemma Run4IsPaired()
    ensures PairedWith(ExamplesRun4, Categories[15..20])
  {
  }

  lemma Run5IsPaired()
    ensures PairedWith(ExamplesRun5, Categories[20..])
  {
  }

  lemma TableIsPaired()
    ensures PairedWith(Examples, Categories)
  {
    var c := Categories;
    Run1IsPaired(); Run2IsPaired(); Run3IsPaired(); Run4IsPaired(); Run5IsPaired();
    PairedAppend(ExamplesRun1, c[..5], ExamplesRun2, c[5..10]);
    assert c[..5] + c[5..10] == c[..10];
    PairedAppend(ExamplesRun1 + ExamplesRun2, c[..10], ExamplesRun3, c[10..15]);
    assert c[..10] + c[10..15] == c[..15];
    PairedAppend(ExamplesRun1 + ExamplesRun2 + ExamplesRun3, c[..15], ExamplesRun4, c[15..20]);
    assert c[..15] + c[15..20] == c[..20];
    PairedAppend(ExamplesRun1 + ExamplesRun2 + ExamplesRun3 + ExamplesRun4, c[..20], ExamplesRun5, c[20..]);
    assert c[..20] + c[20..] == c;
  }

  lemma CategoriesAreDistinct()
    ensures Distinct(Categories)
  {
  }

  /** The table holds 50 examples over 25 distinct labels, each label exactly twice, "Other" among them. */
  lemma ExampleTableShape()
    ensures |Examples| == 50 && |Categories| == 25 && Distinct(Categories)
    ensures forall e | e in Examples :: e.category in Categories
    ensures forall l :: LabelCount(Examples, l) == if l in Categories then 2 else 0
    ensures "Other" in Categories
  {
    TableIsPaired();
    CategoriesAreDistinct();
    forall l ensures LabelCount(Examples, l) == if l in Categories then 2 else 0 {
      PairedCounts(Examples, Categories, l);
    }
    assert Categories[24] == "Other";
  }
}
