/** The recency compactor: which messages are kept verbatim, how a summary of the rest is
    scored, and which of at most two summaries is returned. */
module Compactor {
  import opened Wrappers

  datatype Role = System | User | Assistant | ToolRole

  datatype Message = Message(role: Role, content: string, tokens: int)

  // ---- Tokens of a text ---------------------------------------------------------------------------

  const STOPWORDS := {
    "the", "a", "an", "and", "or", "but", "is", "are", "was", "were", "be", "been", "to", "of", "in",
    "on", "at", "for", "with", "as", "by", "that", "this", "it", "its", "we", "our", "you", "your",
    "they", "their", "i", "my", "me", "us", "have", "has", "had", "do", "does", "did", "not", "no",
    "any", "all", "one", "will", "would", "should", "can", "could", "just", "so", "if", "when",
    "what", "about", "want", "like", "get", "got", "good", "great", "some", "very", "also", "too",
    "than", "then", "there", "here", "from", "keep", "hard", "off"
  }

  predicate IsDigit(c: char) { '0' <= c <= '9' }

  predicate IsWordChar(c: char) { 'a' <= c <= 'z' || 'A' <= c <= 'Z' || c == '\'' }

  function Lower(c: char): char {
    if 'A' <= c <= 'Z' then (c as int + 32) as char else c
  }

  function LowerAll(t: string): (s: string)
    ensures |s| == |t| && forall i :: 0 <= i < |t| ==> s[i] == Lower(t[i])
  {
    seq(|t|, i requires 0 <= i < |t| => Lower(t[i]))
  }

  /** The length of the run of `in` characters that `t` starts with. */
  function RunLength(t: string, within: char -> bool): (n: nat)
    ensures n <= |t| && (forall i :: 0 <= i < n ==> within(t[i])) && (n < |t| ==> !within(t[n]))
  {
    if t == [] || !within(t[0]) then 0 else 1 + RunLength(t[1..], within)
  }

  /** `re.findall` of a one-class pattern: the maximal runs, left to right. */
  function Runs(t: string, within: char -> bool): seq<string>
    decreases |t|
  {
    if t == [] then []
    else
      var n := RunLength(t, within);
      if n == 0 then Runs(t[1..], within) else [t[..n]] + Runs(t[n..], within)
  }

  function Numbers(t: string): set<string> { set w | w in Runs(t, IsDigit) }

  function ContentWords(t: string): set<string> {
    set w | w in Runs(LowerAll(t), IsWordChar) && w !in STOPWORDS && |w| > 2
  }

  function RoleName(r: Role): string {
    match r
    case System => "system"
    case User => "user"
    case Assistant => "assistant"
    case ToolRole => "tool"
  }

  function MessageText(messages: seq<Message>): string {
    if messages == [] then ""
    else
      var line := RoleName(messages[0].role) + ": " + messages[0].content;
      if |messages| == 1 then line else line + "\n" + MessageText(messages[1..])
  }

  // ---- The score ----------------------------------------------------------------------------------

  /** The kept part of a token set; an empty source has nothing to lose. */
  function Retention(source: set<string>, summary: set<string>): real {
    if source == {} then 1.0 else |source * summary| as real / |source| as real
  }

  function Score(source: seq<Message>, summary: string): real {
    var text := MessageText(source);
    0.6 * Retention(Numbers(text), Numbers(summary)) + 0.4 * Retention(ContentWords(text), ContentWords(summary))
  }

  lemma DividesBelow(k: real, m: real, n: real)
    requires k <= m && n > 0.0
    ensures k / n <= m / n
  {
    var x, y := k / n, m / n;
    assert x * n == k && y * n == m;
    assert x > y ==> (x - y) * n > 0.0;
  }

  lemma Fraction(k: real, m: real, n: real)
    requires 0.0 <= k <= m <= n && n > 0.0
    ensures 0.0 <= k / n <= m / n <= 1.0 && (k / n == 1.0 <==> k == n)
  {
    assert 0.0 / n == 0.0 && n / n == 1.0;
    DividesBelow(0.0, k, n);
    DividesBelow(k, m, n);
    DividesBelow(m, n, n);
    assert k / n * n == k;
  }

  /** A retention is a fraction, and is 1 exactly when nothing is lost. */
  lemma RetentionRange(source: set<string>, summary: set<string>)
    ensures 0.0 <= Retention(source, summary) <= 1.0
    ensures Retention(source, summary) == 1.0 <==> source <= summary
  {
    if source != {} {
      var kept := source * summary;
      Subset(kept, source);
      Fraction(|kept| as real, |kept| as real, |source| as real);
      assert kept == source <==> source <= summary;
    }
  }

  lemma Subset(a: set<string>, b: set<string>)
    requires a <= b
    ensures |a| <= |b| && (|a| == |b| <==> a == b)
  {
    assert b == a + (b - a);
    assert |b| == |a| + |b - a|;
    if |a| == |b| {
      assert b - a == {};
    }
  }

  lemma RetentionGrows(source: set<string>, summary: set<string>, more: set<string>)
    requires summary <= more
    ensures Retention(source, summary) <= Retention(source, more)
  {
    if source != {} {
      Subset(source * summary, source * more);
      Subset(source * more, source);
      Fraction(|source * summary| as real, |source * more| as real, |source| as real);
    }
  }

  /** The score is in [0, 1], and is 1 exactly when the summary keeps every number and every
      content word of the source. */
  lemma ScoreRange(source: seq<Message>, summary: string)
    ensures 0.0 <= Score(source, summary) <= 1.0
    ensures Score(source, summary) == 1.0 <==>
              Numbers(MessageText(source)) <= Numbers(summary)
              && ContentWords(MessageText(source)) <= ContentWords(summary)
  {
    RetentionRange(Numbers(MessageText(source)), Numbers(summary));
    RetentionRange(ContentWords(MessageText(source)), ContentWords(summary));
  }

  /** Hence the source text is a perfect summary of itself. */
  lemma SourceScoresOne(source: seq<Message>)
    ensures Score(source, MessageText(source)) == 1.0
  {
    ScoreRange(source, MessageText(source));
  }

  /** A run cannot cross a separator, so the runs before it stay what they are. */
  lemma {:induction false} RunsAcrossSeparator(a: string, sep: char, b: string, within: char -> bool)
    requires !within(sep)
    ensures Runs(a + [sep] + b, within) == Runs(a, within) + Runs(b, within)
    decreases |a|
  {
    var t := a + [sep] + b;
    if a == [] {
      assert t[0] == sep && t[1..] == b;
    } else {
      RunLengthStops(a, [sep] + b, within);
      assert t == a + ([sep] + b);
      var n := RunLength(a, within);
      var k := if n == 0 then 1 else n;
      assert t[k..] == a[k..] + [sep] + b;
      RunsAcrossSeparator(a[k..], sep, b, within);
      assert t[..n] == a[..n];
    }
  }

  lemma {:induction false} RunLengthStops(a: string, rest: string, within: char -> bool)
    requires rest != [] && !within(rest[0])
    ensures RunLength(a + rest, within) == RunLength(a, within)
  {
    if a == [] {
      assert a + rest == rest;
    } else {
      assert (a + rest)[1..] == a[1..] + rest;
      RunLengthStops(a[1..], rest, within);
    }
  }

  lemma NumbersGrow(summary: string, more: string)
    ensures Numbers(summary) <= Numbers(summary + " " + more)
  {
    RunsAcrossSeparator(summary, ' ', more, IsDigit);
  }

  lemma WordsGrow(summary: string, more: string)
    ensures ContentWords(summary) <= ContentWords(summary + " " + more)
  {
    LowerAcrossSpace(summary, more);
    RunsAcrossSeparator(LowerAll(summary), ' ', LowerAll(more), IsWordChar);
  }

  lemma LowerAcrossSpace(summary: string, more: string)
    ensures LowerAll(summary + " " + more) == LowerAll(summary) + [' '] + LowerAll(more)
  {
  }

  /** Appending a space and any further text to a summary never lowers its score. */
  lemma AppendingNeverLowers(source: seq<Message>, summary: string, more: string)
    ensures Score(source, summary + " " + more) >= Score(source, summary)
  {
    NumbersGrow(summary, more);
    WordsGrow(summary, more);
    var text, longer := MessageText(source), summary + " " + more;
    RetentionGrows(Numbers(text), Numbers(summary), Numbers(longer));
    RetentionGrows(ContentWords(text), ContentWords(summary), ContentWords(longer));
  }

  // ---- Which messages are kept ----------------------------------------------------------------------

  function Tokens(messages: seq<Message>): int {
    if messages == [] then 0 else Tokens(messages[..|messages| - 1]) + messages[|messages| - 1].tokens
  }

  function Last(messages: seq<Message>, k: nat): seq<Message>
    requires k <= |messages|
  {
    messages[|messages| - k..]
  }

  lemma {:induction false} TokensConcat(a: seq<Message>, b: seq<Message>)
    ensures Tokens(a + b) == Tokens(a) + Tokens(b)
  {
    if b == [] {
      assert a + b == a;
    } else {
      assert (a + b)[..|a + b| - 1] == a + b[..|b| - 1];
      TokensConcat(a, b[..|b| - 1]);
    }
  }

  lemma LastGrows(messages: seq<Message>, k: nat)
    requires k < |messages|
    ensures Tokens(Last(messages, k + 1)) == messages[|messages| - k - 1].tokens + Tokens(Last(messages, k))
  {
    var m := messages[|messages| - k - 1];
    assert Last(messages, k + 1) == [m] + Last(messages, k);
    TokensConcat([m], Last(messages, k));
    assert [m][..0] == [];
    assert Tokens([m]) == m.tokens;
  }

  /** `k` messages may be kept, and every shorter suffix fits as well. */
  ghost predicate Keeps(messages: seq<Message>, limit: int, budget: int, k: nat) {
    k <= |messages| && (k == 0 || k <= limit)
    && forall j :: 1 <= j <= k ==> Tokens(Last(messages, j)) <= budget
  }

  /** Where the next message has no room, no longer suffix is kept. */
  lemma KeepsStops(messages: seq<Message>, limit: int, budget: int, k: nat)
    requires k < |messages| && (k >= limit || Tokens(Last(messages, k + 1)) > budget)
    ensures forall n: nat :: Keeps(messages, limit, budget, n) ==> n <= k
  {
  }

  /** `_select_preserved`: walk backward from the newest message while there is room. The result
      is the longest suffix all of whose own suffixes are within the limits. */
  method SelectPreserved(messages: seq<Message>, limit: int, budget: int) returns (preserved: seq<Message>, total: int)
    ensures |preserved| <= |messages| && preserved == Last(messages, |preserved|) && total == Tokens(preserved)
    ensures Keeps(messages, limit, budget, |preserved|)
    ensures forall k: nat :: Keeps(messages, limit, budget, k) ==> k <= |preserved|
  {
    preserved, total := [], 0;
    var i := |messages|;
    while i > 0
      invariant 0 <= i <= |messages| && |preserved| == |messages| - i
      invariant preserved == Last(messages, |preserved|) && total == Tokens(preserved)
      invariant Keeps(messages, limit, budget, |preserved|)
      decreases i
    {
      var message := messages[i - 1];
      LastGrows(messages, |preserved|);
      if |preserved| >= limit {
        KeepsStops(messages, limit, budget, |preserved|);
        break;
      }
      if total + message.tokens > budget {
        KeepsStops(messages, limit, budget, |preserved|);
        break;
      }
      preserved := [message] + preserved;
      total := total + message.tokens;
      i := i - 1;
    }
  }

  lemma {:induction false} SuffixesAreMonotone(messages: seq<Message>, j: nat, k: nat)
    requires j <= k <= |messages| && forall m :: m in messages ==> m.tokens >= 0
    ensures Tokens(Last(messages, j)) <= Tokens(Last(messages, k))
    decreases k - j
  {
    if j < k {
      LastGrows(messages, j);
      SuffixesAreMonotone(messages, j + 1, k);
    }
  }

  /** With non-negative token counts and budget, that is the longest suffix with at most `limit`
      messages and a total within the budget. */
  lemma KeepsIsWithinBudget(messages: seq<Message>, limit: int, budget: int, k: nat)
    requires budget >= 0 && forall m :: m in messages ==> m.tokens >= 0
    ensures Keeps(messages, limit, budget, k) <==>
              k <= |messages| && (k == 0 || k <= limit) && (k <= |messages| ==> Tokens(Last(messages, k)) <= budget)
  {
    if k <= |messages| {
      forall j | 1 <= j <= k ensures Tokens(Last(messages, j)) <= Tokens(Last(messages, k)) {
        SuffixesAreMonotone(messages, j, k);
      }
    }
  }

  // ---- Compaction -----------------------------------------------------------------------------------

  /** What a summarizer returns for some messages and a token target; `None` is an exception. */
  type Summarizer = (seq<Message>, int) -> Option<string>

  datatype Compaction = Compaction(
    summary: string, preserved: seq<Message>, tokensBefore: int, tokensAfter: int,
    score: Option<real>, degraded: bool)

  /** The highest value of `f` over a list of one or two. */
  lemma BestOfTwo(f: string -> real, tried: seq<string>, best: string)
    requires 1 <= |tried| <= 2 && f(tried[0]) <= f(best) && f(tried[|tried| - 1]) <= f(best)
    ensures forall s :: s in tried ==> f(s) <= f(best)
  {
    forall s | s in tried ensures f(s) <= f(best) {
      var i :| 0 <= i < |tried| && tried[i] == s;
      assert i == 0 || i == |tried| - 1;
    }
  }

  class RecencyCompactor {
    const summarize: Summarizer
    const limit: int
    const validate: bool
    const threshold: real
    const retry: Option<Summarizer>

    constructor (summarize: Summarizer, limit: int, validate: bool, threshold: real, retry: Option<Summarizer>)
      ensures this.summarize == summarize && this.limit == limit && this.validate == validate
      ensures this.threshold == threshold && this.retry == retry
    {
      this.summarize, this.limit, this.validate := summarize, limit, validate;
      this.threshold, this.retry := threshold, retry;
    }

    /** The summaries `compact` scores: the first, and the retry's when it is called and answers. */
    ghost function Scored(older: seq<Message>, target: int): seq<string>
      requires summarize(older, target).Some?
    {
      var first := summarize(older, target).value;
      if Score(older, first) < threshold && retry.Some? && retry.value(older, target).Some?
      then [first, retry.value(older, target).value]
      else [first]
    }

    /** The first summary, or the retry's if that one is tried and scores at least as well. */
    method Best(older: seq<Message>, target: int, summary: string) returns (best: string, score: real)
      requires summarize(older, target) == Some(summary)
      ensures best in Scored(older, target) && score == Score(older, best)
      ensures forall s :: s in Scored(older, target) ==> Score(older, s) <= score
      // The retry is consulted below the threshold only, and wins a tie.
      ensures Score(older, summary) >= threshold || retry == None ==> best == summary
      ensures Score(older, summary) < threshold && retry.Some? ==>
        match retry.value(older, target)
        case None => best == summary
        case Some(s) => best == if Score(older, s) >= Score(older, summary) then s else summary
    {
      best, score := summary, Score(older, summary);
      if score < threshold && retry.Some? {
        var retried := retry.value(older, target);
        if retried.Some? {
          var retryScore := Score(older, retried.value);
          if retryScore >= score {
            best, score := retried.value, retryScore;
          }
        }
      }
      BestOfTwo(s => Score(older, s), Scored(older, target), best);
    }

    /** What `compact` promises of a result, whichever summary it chose. */
    ghost predicate Fits(messages: seq<Message>, older: seq<Message>, budget: int, c: Compaction) {
      && older + c.preserved == messages
      && Keeps(messages, limit, budget, |c.preserved|)
      && (forall k: nat :: Keeps(messages, limit, budget, k) ==> k <= |c.preserved|)
      && c.tokensBefore == Tokens(messages)
      && c.tokensAfter == (if older == [] || Tokens(c.preserved) > budget then Tokens(c.preserved) else budget)
    }

    /** `None`: the first summarizer raised. `older` is returned beside the result. */
    method Compact(messages: seq<Message>, budget: int) returns (r: Option<Compaction>, older: seq<Message>)
      ensures r == None <==> older != [] && summarize(older, Target(messages, older, budget)) == None
      ensures r.Some? ==> Fits(messages, older, budget, r.value)
      ensures r.Some? ==> (r.value.score.Some? <==> validate && older != [])
      ensures r.Some? ==> (r.value.degraded <==> r.value.score.Some? && r.value.score.value < threshold)
      ensures r.Some? && older == [] ==> r.value.summary == ""
      ensures r.Some? && older != [] && !validate ==>
        Some(r.value.summary) == summarize(older, Target(messages, older, budget))
      ensures r.Some? && older != [] && validate ==>
        var c, tried := r.value, Scored(older, Target(messages, older, budget));
        && c.summary in tried && c.score == Some(Score(older, c.summary))
        && forall s :: s in tried ==> Score(older, s) <= c.score.value
    {
      var tokensBefore := TotalTokens(messages);
      var preserved, preservedTokens := SelectPreserved(messages, limit, budget);
      older := messages[..|messages| - |preserved|];
      assert messages == older + preserved;
      TokensConcat(older, preserved);
      if older == [] {
        return Some(Compaction("", preserved, tokensBefore, preservedTokens, None, false)), older;
      }
      var targetTokens := if budget - preservedTokens > 0 then budget - preservedTokens else 0;
      var attempt := summarize(older, targetTokens);
      if attempt == None {
        return None, older;
      }
      var tokensAfter := preservedTokens + targetTokens;
      if !validate {
        return Some(Compaction(attempt.value, preserved, tokensBefore, tokensAfter, None, false)), older;
      }
      var best, score := Best(older, targetTokens, attempt.value);
      return Some(Compaction(best, preserved, tokensBefore, tokensAfter, Some(score), score < threshold)), older;
    }
  }

  /** The summarizer's token target: what the kept messages leave of the budget. */
  function Target(messages: seq<Message>, older: seq<Message>, budget: int): int {
    var room := budget - (Tokens(messages) - Tokens(older));
    if room > 0 then room else 0
  }

  method TotalTokens(messages: seq<Message>) returns (n: int)
    ensures n == Tokens(messages)
  {
    n := 0;
    for i := 0 to |messages|
      invariant n == Tokens(messages[..i])
    {
      assert messages[..i + 1][..i] == messages[..i];
      n := n + messages[i].tokens;
    }
    assert messages[..|messages|] == messages;
  }

  /** `tokens_after` is within the budget, and is the budget itself when something is summarized,
      unless the budget is negative and nothing is kept. */
  method CompactWithinBudget(compactor: RecencyCompactor, messages: seq<Message>, budget: int)
    returns (r: Option<Compaction>, older: seq<Message>)
    ensures r.Some? ==> (r.value.tokensAfter <= budget <==> budget >= 0 || r.value.preserved != [])
    ensures r.Some? && older != [] ==>
              (r.value.tokensAfter == budget <==> budget >= 0 || r.value.preserved != [])
  {
    r, older := compactor.Compact(messages, budget);
    if r.Some? {
      var kept := r.value.preserved;
      assert Last(older + kept, |kept|) == kept;
      if kept != [] {
        assert Tokens(Last(messages, |kept|)) <= budget;
      }
    }
  }
}
