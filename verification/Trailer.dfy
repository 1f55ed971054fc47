/** The result trailer of the subprocess shim: one JSON line, the last on stderr, and the
    parser that looks for it. The JSON codec itself is a parameter. */
module Trailer {
  import opened Wrappers
  import opened Utf8

  datatype Trailer = Trailer(success: bool, error: Option<Text>, calls: nat)

  const NEWLINE: Scalar := 0x0A

  /** The characters `str.splitlines` splits at. */
  predicate IsBreak(c: Scalar) {
    0x0A <= c <= 0x0D || 0x1C <= c <= 0x1E || c == 0x85 || c == 0x2028 || c == 0x2029
  }

  /** The characters `str.strip` removes. */
  predicate IsSpace(c: Scalar) {
    IsBreak(c) || c == 0x09 || c == 0x1F || c == 0x20 || c == 0xA0 || c == 0x1680
    || 0x2000 <= c <= 0x200A || c == 0x202F || c == 0x205F || c == 0x3000
  }

  predicate Blank(t: Text) { forall c :: c in t ==> IsSpace(c) }

  predicate OneLine(t: Text) { !Blank(t) && forall c :: c in t ==> !IsBreak(c) }

  /** `t.splitlines()`, with an empty last line when `t` ends in a break, and one more where a
      carriage return meets a newline; the parser drops blank lines anyway. */
  function Lines(t: Text): (ls: seq<Text>)
    ensures ls != []
  {
    if t == [] then [[]]
    else
      var ls, c := Lines(t[..|t| - 1]), t[|t| - 1];
      if IsBreak(c) then ls + [[]] else ls[|ls| - 1 := ls[|ls| - 1] + [c]]
  }

  function LastNonBlank(ls: seq<Text>): Option<Text> {
    if ls == [] then None
    else if !Blank(ls[|ls| - 1]) then Some(ls[|ls| - 1])
    else LastNonBlank(ls[..|ls| - 1])
  }

  /** What `json.loads` and the check of the three keys make of a line. Only `JSONDecodeError` is
      caught: a number with too many digits, or too deep a nesting, raises something else. */
  datatype Parsed = Found(trailer: Trailer) | NoTrailer | ParseRaises(what: Text)

  /** `_parse_trailer`. */
  function ParseTrailer(stderr: Text, dec: Text -> Parsed): Parsed {
    match LastNonBlank(Lines(stderr))
    case None => NoTrailer
    case Some(line) => dec(line)
  }

  /** What stands after the last line break. */
  function Tail(t: Text): Text { Lines(t)[|Lines(t)| - 1] }

  /** What the child writes to stderr as its last action. */
  function PrintTrailer(t: Trailer, enc: Trailer -> Text): Text { enc(t) + [NEWLINE] }

  /** Text without a break only lengthens the last line. */
  lemma {:induction false} LinesExtend(prior: Text, line: Text)
    requires forall c :: c in line ==> !IsBreak(c)
    ensures Lines(prior + line) == Lines(prior)[|Lines(prior)| - 1 := Tail(prior) + line]
  {
    if line == [] {
      assert prior + line == prior && Tail(prior) + line == Tail(prior);
    } else {
      var n := |line| - 1;
      var init := line[..n];
      LinesExtend(prior, init);
      assert (prior + line)[..|prior| + n] == prior + init;
      assert Tail(prior) + line == Tail(prior) + init + [line[n]];
    }
  }

  /** Whatever was on stderr before, the parser reads the trailer's line together with the
      text that had no line break after it. */
  lemma ParserSees(prior: Text, line: Text, dec: Text -> Parsed)
    requires OneLine(line)
    ensures ParseTrailer(prior + line + [NEWLINE], dec) == dec(Tail(prior) + line)
  {
    var t := prior + line;
    LinesExtend(prior, line);
    assert (t + [NEWLINE])[..|t|] == t;
    var ls := Lines(t);
    assert Lines(t + [NEWLINE]) == ls + [[]];
    assert (ls + [[]])[..|ls|] == ls;
    assert LastNonBlank(ls + [[]]) == LastNonBlank(ls);
    var c :| c in line && !IsSpace(c);
    assert ls[|ls| - 1] == Tail(prior) + line;
    assert c in ls[|ls| - 1];
    assert t + [NEWLINE] == prior + line + [NEWLINE];
  }

  /** The tail is empty exactly when nothing was written or the text ends in a line break. */
  lemma TailEmpty(t: Text)
    ensures Tail(t) == [] <==> t == [] || IsBreak(t[|t| - 1])
  {
  }

  /** `t[i..j]` is the last line of `t` that has anything but white space on it. */
  ghost predicate LastLineAt(t: Text, i: int, j: int) {
    && 0 <= i <= j <= |t| && (i == 0 || IsBreak(t[i - 1])) && (j == |t| || IsBreak(t[j]))
    && (forall k :: i <= k < j ==> !IsBreak(t[k]))
    && !Blank(t[i..j]) && Blank(t[j..])
  }

  lemma OneLastLine(t: Text, a: int, b: int, i: int, j: int)
    requires LastLineAt(t, a, b) && LastLineAt(t, i, j) && b <= j
    ensures a == i && b == j
  {
    BlankWithin(t, b, i, j);
  }

  lemma BlankWithin(t: Text, b: int, i: int, j: int)
    ensures 0 <= b <= i <= j <= |t| && Blank(t[b..]) ==> Blank(t[i..j])
  {
    if 0 <= b <= i <= j <= |t| {
      assert t[i..j] == t[b..][i - b..j - b];
    }
  }

  lemma AppendedLine(ls: seq<Text>, l: Text)
    ensures LastNonBlank(ls + [l]) == if Blank(l) then LastNonBlank(ls) else Some(l)
  {
    assert (ls + [l])[..|ls|] == ls;
  }

  /** Where the last line begins, and what stands before it. */
  lemma {:induction false} TailAt(t: Text) returns (i: nat)
    ensures i <= |t| && Tail(t) == t[i..] && forall k :: i <= k < |t| ==> !IsBreak(t[k])
    ensures if i == 0 then Lines(t) == [t] else IsBreak(t[i - 1]) && Lines(t) == Lines(t[..i - 1]) + [t[i..]]
  {
    if t == [] {
      i := 0;
    } else {
      var n := |t| - 1;
      var init := t[..n];
      if IsBreak(t[n]) {
        i := n + 1;
      } else {
        i := TailAt(init);
        assert t[i..] == init[i..] + [t[n]];
        if i > 0 {
          assert t[..i - 1] == init[..i - 1];
        }
      }
    }
  }

  lemma {:induction false} ReadsLastLine(t: Text) returns (i: nat, j: nat)
    requires !Blank(t)
    ensures LastLineAt(t, i, j) && LastNonBlank(Lines(t)) == Some(t[i..j])
  {
    i := TailAt(t);
    j := |t|;
    if Blank(t[i..]) {
      var k := i;
      assert t == t[..k] + t[k..];
      AppendedLine(Lines(t[..k - 1]), t[k..]);
      i, j := ReadsLastLine(t[..k - 1]);
      SameBefore(t, k, i, j);
    } else {
      assert t[i..j] == t[i..];
      AppendedLine(Lines(t)[..|Lines(t)| - 1], t[i..]);
    }
  }

  /** A last line stays the last one when blank text follows. */
  lemma SameBefore(t: Text, k: nat, i: nat, j: nat)
    requires 0 < k <= |t| && IsBreak(t[k - 1]) && Blank(t[k..]) && LastLineAt(t[..k - 1], i, j)
    ensures LastLineAt(t, i, j) && t[i..j] == t[..k - 1][i..j]
  {
    assert t[i..j] == t[..k - 1][i..j];
    assert t[j..] == t[..k - 1][j..] + [t[k - 1]] + t[k..];
    assert forall c :: c in t[j..] ==> c in t[..k - 1][j..] || c == t[k - 1] || c in t[k..];
  }

  lemma {:induction false} BlankLines(t: Text)
    requires Blank(t)
    ensures LastNonBlank(Lines(t)) == None
  {
    var i := TailAt(t);
    if i > 0 {
      AppendedLine(Lines(t[..i - 1]), t[i..]);
      BlankLines(t[..i - 1]);
    }
  }

  /** The parser gives the JSON codec the last line that is not blank, wherever it stands, and
      finds no trailer exactly when there is no such line or the codec reads none on it. */
  lemma ParserReadsLastLine(t: Text, dec: Text -> Parsed)
    ensures Blank(t) ==> ParseTrailer(t, dec) == NoTrailer
    ensures !Blank(t) <==> exists i, j :: LastLineAt(t, i, j)
    ensures forall i, j :: LastLineAt(t, i, j) ==> ParseTrailer(t, dec) == dec(t[i..j])
  {
    if Blank(t) {
      BlankLines(t);
    } else {
      var i, j := ReadsLastLine(t);
      forall a, b | LastLineAt(t, a, b) ensures a == i && b == j {
        if b <= j {
          OneLastLine(t, a, b, i, j);
        } else {
          OneLastLine(t, i, j, a, b);
        }
      }
    }
  }
}
