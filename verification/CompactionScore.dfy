/** What the score of a summary measures: its tokens are the maximal runs of the text, every token
    of a kind weighs the same, and the two kinds weigh 0.6 and 0.4. */
module CompactionScore {
  import opened Compactor

  /** `w` is a run between `a` and `b`: it is not empty, lies within the class, and cannot be
      lengthened on either side. */
  ghost predicate RunBetween(within: char -> bool, a: string, w: string, b: string) {
    && w != "" && (forall k :: 0 <= k < |w| ==> within(w[k]))
    && (a == "" || !within(a[|a| - 1])) && (b == "" || !within(b[0]))
  }

  lemma RunsOfRun(w: string, within: char -> bool)
    requires w != "" && forall k :: 0 <= k < |w| ==> within(w[k])
    ensures Runs(w, within) == [w]
  {
    assert RunLength(w, within) == |w|;
    assert w[..|w|] == w && w[|w|..] == "";
  }

  lemma RunAtStart(within: char -> bool, w: string, b: string)
    requires RunBetween(within, "", w, b)
    ensures w in Runs(w + b, within)
  {
    RunsOfRun(w, within);
    if b == "" {
      assert w + b == w;
    } else {
      RunsAcrossSeparator(w, b[0], b[1..], within);
      assert w + b == w + [b[0]] + b[1..];
    }
  }

  lemma AfterSeparator(within: char -> bool, a: string, rest: string, w: string)
    requires a != "" && !within(a[|a| - 1]) && w in Runs(rest, within)
    ensures w in Runs(a + rest, within)
  {
    var n := |a| - 1;
    RunsAcrossSeparator(a[..n], a[n], rest, within);
    assert a == a[..n] + [a[n]];
  }

  lemma RunIsFound(within: char -> bool, a: string, w: string, b: string)
    requires RunBetween(within, a, w, b)
    ensures w in Runs(a + w + b, within)
  {
    RunAtStart(within, w, b);
    assert a + w + b == a + (w + b);
    if a == "" {
      assert a + (w + b) == w + b;
    } else {
      AfterSeparator(within, a, w + b, w);
    }
  }

  /** Either the text is one run, or none; or it has a first character outside the class. */
  lemma FirstSeparator(t: string, within: char -> bool) returns (u: string, sep: string, v: string)
    ensures t == u + sep + v && (forall k :: 0 <= k < |u| ==> within(u[k]))
    ensures if sep == "" then v == "" else |sep| == 1 && !within(sep[0])
    ensures Runs(t, within) == (if u == "" then [] else [u]) + Runs(v, within)
  {
    var p := RunLength(t, within);
    u := t[..p];
    if u != "" {
      RunsOfRun(u, within);
    }
    if p == |t| {
      sep, v := "", "";
      assert t == u;
    } else {
      sep, v := [t[p]], t[p + 1..];
      RunsAcrossSeparator(u, t[p], v, within);
      assert t == u + [t[p]] + v;
    }
  }

  lemma RunLater(within: char -> bool, u: string, sep: string, a: string, w: string, b: string)
    requires |sep| == 1 && !within(sep[0]) && RunBetween(within, a, w, b)
    ensures RunBetween(within, u + sep + a, w, b) && u + sep + (a + w + b) == u + sep + a + w + b
  {
  }

  lemma {:induction false} FoundIsRun(t: string, within: char -> bool, w: string) returns (a: string, b: string)
    requires w in Runs(t, within)
    ensures RunBetween(within, a, w, b) && t == a + w + b
    decreases |t|
  {
    var u, sep, v := FirstSeparator(t, within);
    if u != "" && w == u {
      a, b := "", sep + v;
      assert t == a + w + b;
    } else {
      var before;
      before, b := FoundIsRun(v, within, w);
      RunLater(within, u, sep, before, w, b);
      a := u + sep + before;
    }
  }

  /** The tokens found are exactly the runs of the text. */
  lemma RunsAreMaximal(t: string, within: char -> bool, w: string)
    ensures w in Runs(t, within) <==> exists a, b :: RunBetween(within, a, w, b) && t == a + w + b
  {
    if w in Runs(t, within) {
      var a, b := FoundIsRun(t, within, w);
    }
    if a, b :| RunBetween(within, a, w, b) && t == a + w + b {
      RunIsFound(within, a, w, b);
    }
  }

  /** The numbers are the runs of digits, and the content words the runs of letters and apostrophes
      of the lower-cased text that have three characters or more and are no stopwords. */
  lemma TokensOfText(t: string, w: string)
    ensures w in Numbers(t) <==> exists a, b :: RunBetween(IsDigit, a, w, b) && t == a + w + b
    ensures w in ContentWords(t) <==>
              |w| >= 3 && w !in STOPWORDS && exists a, b :: RunBetween(IsWordChar, a, w, b) && LowerAll(t) == a + w + b
  {
    RunsAreMaximal(t, IsDigit, w);
    RunsAreMaximal(LowerAll(t), IsWordChar, w);
  }

  /** The text of the messages is their lines, role and content, with a newline between any two. */
  lemma {:induction false} MessageTextJoins(a: seq<Message>, b: seq<Message>)
    ensures a != [] && b != [] ==> MessageText(a + b) == MessageText(a) + "\n" + MessageText(b)
    ensures |a| == 1 ==> MessageText(a) == RoleName(a[0].role) + ": " + a[0].content
  {
    if a != [] && b != [] {
      var line := RoleName(a[0].role) + ": " + a[0].content;
      assert (a + b)[0] == a[0] && (a + b)[1..] == a[1..] + b;
      assert MessageText(a + b) == line + "\n" + MessageText(a[1..] + b);
      if |a| == 1 {
        assert a[1..] + b == b;
      } else {
        MessageTextJoins(a[1..], b);
        assert MessageText(a) == line + "\n" + MessageText(a[1..]);
      }
    }
  }

  /** Every lost token costs the same. */
  lemma RetentionLoses(source: set<string>, summary: set<string>)
    requires source != {}
    ensures (1.0 - Retention(source, summary)) * |source| as real == |source - summary| as real
  {
    var n, kept := |source| as real, source * summary;
    assert source == kept + (source - summary);
    assert Retention(source, summary) * n == |kept| as real;
    assert (1.0 - Retention(source, summary)) * n == n - Retention(source, summary) * n;
  }

  lemma RetentionNone(source: set<string>, summary: set<string>)
    requires source != {}
    ensures Retention(source, summary) == 0.0 <==> source !! summary
  {
    var n, kept := |source| as real, source * summary;
    assert Retention(source, summary) * n == |kept| as real;
    assert source !! summary ==> kept == {};
    if kept == {} {
      forall w | w in source ensures w !in summary {
        assert w in summary ==> w in kept;
      }
    }
    assert kept == {} <==> |kept| == 0;
    assert n > 0.0 && Retention(source, summary) * n == 0.0 ==> Retention(source, summary) == 0.0;
  }

  /** A summary that keeps all content words and no number scores 0.4, one that keeps all numbers and
      no content word 0.6, and one that keeps nothing 0, where there is something to lose. */
  lemma ScoreWeights(source: seq<Message>, summary: string)
    ensures var text := MessageText(source);
            var numbers, words := Numbers(text), ContentWords(text);
            && (numbers != {} && numbers !! Numbers(summary) && words <= ContentWords(summary) ==>
                  Score(source, summary) == 0.4)
            && (words != {} && words !! ContentWords(summary) && numbers <= Numbers(summary) ==>
                  Score(source, summary) == 0.6)
            && (numbers != {} && words != {} ==>
                  (Score(source, summary) == 0.0 <==> numbers !! Numbers(summary) && words !! ContentWords(summary)))
  {
    var text := MessageText(source);
    var numbers, words := Numbers(text), ContentWords(text);
    RetentionRange(numbers, Numbers(summary));
    RetentionRange(words, ContentWords(summary));
    if numbers != {} {
      RetentionNone(numbers, Numbers(summary));
    }
    if words != {} {
      RetentionNone(words, ContentWords(summary));
    }
  }
}
