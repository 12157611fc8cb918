/** The pure parts of `analyze_sentiment_with_context`: which comments
    survive validation, and the prompt built from them. */
module Analysis {
  import opened Wrappers
  import opened Text

  const MaxComments := 100
  const MaxCommentLength := 5000
  const MaxQueryLength := 1000
  const SampleSize := 5
  const SampleWidth := 100
  const Bullet := "  \U{2022} "

  /** A comment survives when its stripped text is non-empty and at most
      5000 characters long. */
  predicate Keeps(comment: string) {
    var s := Strip(comment);
    s != "" && |s| <= MaxCommentLength
  }

  /** What a surviving comment looks like once it has been stripped. */
  predicate Survivor(s: string) {
    s != "" && |s| <= MaxCommentLength && Strip(s) == s
  }

  /** `valid_comments`: the stripped texts of the surviving comments, in their
      original order. Every entry is non-empty, within the length limit and
      already stripped. */
  function ValidComments(comments: seq<string>): (r: seq<string>)
    ensures |r| <= |comments|
    ensures forall i :: 0 <= i < |r| ==> Survivor(r[i])
  {
    if comments == [] then []
    else
      var last := comments[|comments| - 1];
      var init := ValidComments(comments[..|comments| - 1]);
      if Keeps(last) then
        StripIdempotent(last);
        assert Survivor(Strip(last));
        init + [Strip(last)]
      else
        init
  }

  /** Filtering distributes over concatenation: the survivors of `a + b` are
      the survivors of `a` followed by those of `b`, so the filter keeps the
      order of the input. */
  lemma {:induction false} ValidCommentsOfConcat(a: seq<string>, b: seq<string>)
    ensures ValidComments(a + b) == ValidComments(a) + ValidComments(b)
  {
    if b == [] {
      assert a + b == a;
    } else {
      var b' := b[..|b| - 1];
      assert (a + b)[..|a + b| - 1] == a + b';
      assert (a + b)[|a + b| - 1] == b[|b| - 1];
      ValidCommentsOfConcat(a, b');
    }
  }

  /** A single comment survives as its stripped text exactly when it `Keeps`. */
  lemma ValidCommentsOfOne(c: string)
    ensures ValidComments([c]) == if Keeps(c) then [Strip(c)] else []
  {
    assert [c][..0] == [];
  }

  /** `if user_query:` — a missing and an empty query are both absent. */
  function QueryText(query: Option<string>): string {
    query.GetOr("")
  }

  /** `f"  • {c[:100]}"` for each sample. */
  function SampleLines(samples: seq<string>): (r: seq<string>)
    ensures |r| == |samples|
    ensures forall i :: 0 <= i < |r| ==> r[i] == Bullet + Take(samples[i], SampleWidth)
    ensures forall i :: 0 <= i < |r| ==> |r[i]| <= |Bullet| + SampleWidth
  {
    if samples == [] then [] else [Bullet + Take(samples[0], SampleWidth)] + SampleLines(samples[1..])
  }

  lemma {:induction false} JoinedLinesLength(lines: seq<string>)
    requires forall i :: 0 <= i < |lines| ==> |lines[i]| <= |Bullet| + SampleWidth
    ensures |Join("\n", lines)| <= (|Bullet| + SampleWidth + 1) * |lines|
  {
    if |lines| > 1 {
      JoinedLinesLength(lines[1..]);
    }
  }

  /** The prompt's opening: the number of valid comments and the samples. */
  function Opening(count: nat, sampleText: string): string {
    "I have " + NatToString(count) + " comments to analyze.\n\nSample comments:\n" + sampleText + "\n"
  }

  /** The "(Plus N more comments)" note, present when there are more than
      five valid comments. */
  function MoreNote(count: nat): (r: string)
    ensures count <= MaxComments ==> |r| <= 30
  {
    if count > SampleSize then "\n(Plus " + NatToString(count - SampleSize) + " more comments)\n" else ""
  }

  /** The "User question" note, present when there is a non-empty query. */
  function QuestionNote(query: Option<string>): (r: string)
    ensures |r| <= |QueryText(query)| + 20
  {
    if QueryText(query) != "" then "\nUser question: " + QueryText(query) + "\n" else ""
  }

  const Closing := "\nPlease provide sentiment analysis insights."

  /** The first and the last character of a concatenation. */
  lemma EndsOfConcat(a: string, b: string)
    ensures |a| > 0 ==> (a + b)[0] == a[0]
    ensures |b| > 0 ==> (a + b)[|a + b| - 1] == b[|b| - 1]
  {
  }

  /** The analysis prompt: the number of valid comments, the first five of
      them cut to 100 characters, a "(Plus N more comments)" note when there
      are more than five, the user's question when there is one, and the
      closing request. With at most 100 comments and a question within its
      limit, the prompt is non-empty, has no surrounding whitespace and is at
      most 5000 characters: the chat turn's validation always accepts it and
      sends it unchanged. */
  function AnalysisPrompt(valid: seq<string>, query: Option<string>): (r: string)
    ensures |valid| <= MaxComments && |QueryText(query)| <= MaxQueryLength ==>
      r != "" && Strip(r) == r && |r| <= 5000
  {
    var count := |valid|;
    var lines := SampleLines(Take(valid, SampleSize));
    var opening := Opening(count, Join("\n", lines));
    var notes := MoreNote(count) + QuestionNote(query);
    var body := opening + notes;
    var prompt := body + Closing;
    assert opening[0] == 'I';
    EndsOfConcat(opening, notes);
    EndsOfConcat(body, Closing);
    StripKeepsTrimmed(prompt);
    JoinedLinesLength(lines);
    prompt
  }
}
