/** The greedy word wrap the report generator applies to the prompt before
    drawing it (report_generator.py, `_wrap_text`).

    The loop keeps a running counter: it starts at 0 and every accepted
    word adds its length plus one, while a word that does not fit opens a
    new line with the counter set to that word's length alone. So on the
    first line the counter runs one ahead of the joined line length and
    that line is filled only up to `width - 1`; every later line is filled
    up to `width`. A word longer than the width sits alone on its line. */
module Reports {
  import opened Strings

  // ---------------------------------------------------------------------
  // The algorithm as written

  /** One pass of the wrapping loop over the remaining `words`, with the
      line under construction and its counter; yields the lines as word
      groups, each later rendered with `' '.join`. */
  function WrapLoop(words: seq<string>, line: seq<string>, length: int, width: int): (lines: seq<seq<string>>)
    ensures NoEmptyLine(lines)
    decreases |words|
  {
    if words == [] then
      if line != [] then [line] else []
    else
      var word := words[0];
      if length + |word| + 1 <= width then
        WrapLoop(words[1..], line + [word], length + |word| + 1, width)
      else
        (if line != [] then [line] else []) + WrapLoop(words[1..], [word], |word|, width)
  }

  /** No line is empty: the loop emits a line only when it holds a word. */
  predicate NoEmptyLine(lines: seq<seq<string>>)
  {
    forall i :: 0 <= i < |lines| ==> lines[i] != []
  }

  /** `' '.join` of every line. */
  function Render(groups: seq<seq<string>>): (lines: seq<string>)
    ensures |lines| == |groups|
  {
    seq(|groups|, i requires 0 <= i < |groups| => Join(groups[i], " "))
  }

  /** `ReportGenerator._wrap_text(text, width)`. */
  function WrapText(text: string, width: int): (lines: seq<string>)
    ensures |lines| == 0 <==> Words(text) == []
    ensures GreedyLayout(SplitLines(lines), Words(text), width)
    ensures forall i :: 0 <= i < |lines| ==> |lines[i]| > 0 && lines[i] == Join(Words(lines[i]), " ")
    ensures forall i :: 0 <= i < |lines| ==>
              |lines[i]| <= LineBudget(i, width) || |Words(lines[i])| == 1
  {
    var groups := WrapLoop(Words(text), [], 0, width);
    WrapLoopIsGreedy(Words(text), [], 0, width, width - 1);
    FlattenWords(groups);
    RenderSplits(groups, width - 1, width);
    Render(groups)
  }

  /** Empty or whitespace-only text, and only such text, wraps to no lines. */
  lemma BlankTextHasNoLines(text: string, width: int)
    ensures WrapText(text, width) == [] <==> forall i :: 0 <= i < |text| ==> IsSpace(text[i])
  {
    WordsEmpty(text);
  }

  /** The prompt caption of the configuration screenshot: `"Prompt: " +
      prompt` wrapped at 80 columns. Every word of the prompt appears, in
      order, after the label, laid out greedily. */
  function PromptCaption(prompt: string): (lines: seq<string>)
    ensures lines != []
    ensures Flatten(SplitLines(lines)) == ["Prompt:"] + Words(prompt)
    ensures GreedyLayout(SplitLines(lines), ["Prompt:"] + Words(prompt), 80)
  {
    var text := "Prompt: " + prompt;
    assert text == "Prompt:" + (" " + prompt);
    WordsOfWordThen("Prompt:", " " + prompt);
    assert (" " + prompt)[1..] == prompt;
    WrapText(text, 80)
  }

  // ---------------------------------------------------------------------
  // The layout it produces, stated independently of the loop

  /** Python's `line.split()` of every rendered line. */
  function SplitLines(lines: seq<string>): seq<seq<string>>
  {
    seq(|lines|, i requires 0 <= i < |lines| => Words(lines[i]))
  }

  /** The words of all lines, in order. */
  function Flatten(groups: seq<seq<string>>): seq<string>
  {
    if groups == [] then [] else groups[0] + Flatten(groups[1..])
  }

  /** Every group of a word sequence made of words is made of words. */
  lemma {:induction false} FlattenWords(groups: seq<seq<string>>)
    requires AllWords(Flatten(groups))
    ensures forall i :: 0 <= i < |groups| ==> AllWords(groups[i])
    decreases |groups|
  {
    if groups != [] {
      var words := Flatten(groups);
      assert words == groups[0] + Flatten(groups[1..]);
      assert forall k :: 0 <= k < |groups[0]| ==> groups[0][k] == words[k];
      assert forall k :: 0 <= k < |Flatten(groups[1..])| ==> Flatten(groups[1..])[k] == words[|groups[0]| + k];
      FlattenWords(groups[1..]);
      forall i | 1 <= i < |groups|
        ensures AllWords(groups[i])
      {
        assert groups[i] == groups[1..][i - 1];
      }
    }
  }

  /** The longest a line at index `i` may be when it holds two or more
      words: one less than the width on the first line, the width after. */
  function LineBudget(i: nat, width: int): int
  {
    if i == 0 then width - 1 else width
  }

  /** A line fits its budget, or is a single word (which may be longer). */
  predicate Fits(line: seq<string>, budget: int)
  {
    |line| == 1 || |Join(line, " ")| <= budget
  }

  /** Appending `next` to `line` would exceed the budget. */
  predicate Overflows(line: seq<string>, next: string, budget: int)
  {
    |Join(line + [next], " ")| > budget
  }

  /** Greedy packing: every line is non-empty and fits, and a line ends
      only where the first word of the next line would not have fitted.
      The first line has budget `first`, all later ones `budget`. */
  predicate Packed(groups: seq<seq<string>>, first: int, budget: int)
    decreases |groups|
  {
    groups == [] ||
    (groups[0] != [] && Fits(groups[0], first) &&
     (|groups| > 1 ==> groups[1] != [] && Overflows(groups[0], groups[1][0], first)) &&
     Packed(groups[1..], budget, budget))
  }

  /** `groups` is the greedy layout of `words` at `width`. */
  predicate GreedyLayout(groups: seq<seq<string>>, words: seq<string>, width: int)
  {
    Flatten(groups) == words && Packed(groups, width - 1, width)
  }

  // ---------------------------------------------------------------------
  // The loop meets the layout

  /** How the loop's counter relates to the line it has built: one ahead
      of the joined length on the first line, equal to it on later lines;
      or, when the first word alone did not fit, equal to that word's
      length, which is then at least the width. */
  predicate CounterAgrees(line: seq<string>, length: int, width: int, budget: int)
  {
    (budget == width - 1 && length == |Join(line, " ")| + 1) ||
    (budget == width && length == |Join(line, " ")|) ||
    (budget == width - 1 && |line| == 1 && length == |line[0]| && length >= width)
  }

  /** Adding one word to a non-empty line adds a space and the word. */
  lemma JoinSnocLength(line: seq<string>, word: string)
    requires line != []
    ensures |Join(line + [word], " ")| == |Join(line, " ")| + 1 + |word|
  {
    JoinAppend(line, [word], " ");
  }

  /** The generalised loop invariant: from any state whose counter agrees
      with its line, the loop emits a greedy layout of the line's words
      followed by the remaining words, and its first line extends the
      current one. */
  lemma {:induction false} WrapLoopIsGreedy(words: seq<string>, line: seq<string>, length: int, width: int, budget: int)
    requires line == [] ==> length == 0 && budget == width - 1
    requires line != [] ==> Fits(line, budget) && CounterAgrees(line, length, width, budget)
    ensures Flatten(WrapLoop(words, line, length, width)) == line + words
    ensures Packed(WrapLoop(words, line, length, width), budget, width)
    ensures line != [] ==> WrapLoop(words, line, length, width) != [] &&
                           line <= WrapLoop(words, line, length, width)[0]
    decreases |words|
  {
    var r := WrapLoop(words, line, length, width);
    if words == [] {
      if line != [] {
        assert r == [line];
        assert Flatten(r) == line + Flatten([]);
      }
    } else {
      var word := words[0];
      assert words == [word] + words[1..];
      if length + |word| + 1 <= width {
        if line != [] {
          JoinSnocLength(line, word);
        }
        WrapLoopIsGreedy(words[1..], line + [word], length + |word| + 1, width, budget);
        assert line <= line + [word];
      } else {
        var rest := WrapLoop(words[1..], [word], |word|, width);
        if line != [] {
          JoinSnocLength(line, word);
          WrapLoopIsGreedy(words[1..], [word], |word|, width, width);
          assert r == [line] + rest;
          assert r[1..] == rest;
          assert Flatten(r) == line + Flatten(rest);
        } else {
          WrapLoopIsGreedy(words[1..], [word], |word|, width, budget);
          assert r == rest;
        }
      }
    }
  }

  // ---------------------------------------------------------------------
  // The layout is unique

  /** Groups of a packing are non-empty, and each fits its budget. */
  lemma {:induction false} PackedLines(groups: seq<seq<string>>, first: int, budget: int)
    requires Packed(groups, first, budget)
    ensures forall i :: 0 <= i < |groups| ==> groups[i] != [] && Fits(groups[i], if i == 0 then first else budget)
    decreases |groups|
  {
    if groups != [] {
      PackedLines(groups[1..], budget, budget);
      forall i | 1 <= i < |groups|
        ensures groups[i] != [] && Fits(groups[i], budget)
      {
        assert groups[i] == groups[1..][i - 1];
      }
    }
  }

  /** A packing covers no words only if it has no lines. */
  lemma EmptyPacking(groups: seq<seq<string>>, first: int, budget: int)
    requires Packed(groups, first, budget)
    ensures Flatten(groups) == [] <==> groups == []
  {
  }

  /** Extending a line never shortens its rendering. */
  lemma {:induction false} JoinPrefixShorter(line: seq<string>, k: nat)
    requires 1 <= k <= |line|
    ensures |Join(line[..k], " ")| <= |Join(line, " ")|
  {
    if k < |line| {
      JoinAppend(line[..k], line[k..], " ");
      assert line[..k] + line[k..] == line;
    } else {
      assert line[..k] == line;
    }
  }

  /** At most one greedy layout covers a word sequence, so the layout
      properties pin the wrapped lines down completely. */
  lemma {:induction false} PackedUnique(g1: seq<seq<string>>, g2: seq<seq<string>>, first: int, budget: int)
    requires Flatten(g1) == Flatten(g2)
    requires Packed(g1, first, budget) && Packed(g2, first, budget)
    ensures g1 == g2
    decreases |g1|
  {
    EmptyPacking(g1, first, budget);
    EmptyPacking(g2, first, budget);
    if g1 != [] && g2 != [] {
      var words := Flatten(g1);
      var a, b := g1[0], g2[0];
      assert words == a + Flatten(g1[1..]) == b + Flatten(g2[1..]);
      if |a| < |b| {
        FirstLineIsLongest(g1, b, first, budget);
      } else if |b| < |a| {
        FirstLineIsLongest(g2, a, first, budget);
      }
      assert a == words[..|a|] && b == words[..|b|];
      assert Flatten(g1[1..]) == Flatten(g2[1..]);
      PackedUnique(g1[1..], g2[1..], budget, budget);
      assert g1 == [a] + g1[1..] && g2 == [b] + g2[1..];
    }
  }

  /** Any run of the same words longer than a greedy first line overflows
      that line's budget: the greedy line stopped exactly where the next
      word no longer fitted. */
  lemma FirstLineIsLongest(g: seq<seq<string>>, longer: seq<string>, first: int, budget: int)
    requires g != [] && Packed(g, first, budget)
    requires |g[0]| < |longer| && longer <= Flatten(g)
    ensures !Fits(longer, first)
  {
    var a := g[0];
    var words := Flatten(g);
    assert words == a + Flatten(g[1..]);
    assert |Flatten(g[1..])| > 0;
    assert |g| > 1;
    var next := g[1][0];
    assert Flatten(g[1..]) == g[1] + Flatten(g[2..]);
    assert words[|a|] == next;
    assert longer[..|a| + 1] == a + [next];
    JoinPrefixShorter(longer, |a| + 1);
  }

  /** Splitting the rendered lines gives back the word groups: `' '.join`
      followed by `.split()` loses nothing. */
  lemma SplitRender(groups: seq<seq<string>>)
    requires forall i :: 0 <= i < |groups| ==> AllWords(groups[i])
    ensures SplitLines(Render(groups)) == groups
  {
    forall i | 0 <= i < |groups|
      ensures Words(Render(groups)[i]) == groups[i]
    {
      WordsOfJoin(groups[i]);
    }
  }

  /** Rendering the groups and splitting each line recovers the groups,
      and every rendered line is non-empty and within its budget unless it
      is a single word. */
  lemma RenderSplits(groups: seq<seq<string>>, first: int, budget: int)
    requires forall i :: 0 <= i < |groups| ==> AllWords(groups[i])
    requires Packed(groups, first, budget)
    ensures SplitLines(Render(groups)) == groups
    ensures forall i :: 0 <= i < |groups| ==>
              |Render(groups)[i]| > 0 && Render(groups)[i] == Join(Words(Render(groups)[i]), " ") &&
              (|Render(groups)[i]| <= (if i == 0 then first else budget) || |Words(Render(groups)[i])| == 1)
  {
    PackedLines(groups, first, budget);
    SplitRender(groups);
    var lines := Render(groups);
    forall i | 0 <= i < |groups|
      ensures Words(lines[i]) == groups[i] && |lines[i]| > 0
    {
      assert Words(lines[i]) == SplitLines(lines)[i];
      JoinPrefixShorter(groups[i], 1);
    }
  }

  // ---------------------------------------------------------------------
  // Consequences

  /** Any greedy layout of the text's words is the one the wrapper emits:
      together with `WrapText`'s own contract, the layout properties
      characterise its output exactly. */
  lemma GreedyLayoutIsWrapText(text: string, width: int, groups: seq<seq<string>>)
    requires GreedyLayout(groups, Words(text), width)
    ensures Render(groups) == WrapText(text, width)
  {
    var wrapped := WrapLoop(Words(text), [], 0, width);
    WrapLoopIsGreedy(Words(text), [], 0, width, width - 1);
    PackedUnique(groups, wrapped, width - 1, width);
  }

  /** Joining rendered non-empty lines with spaces joins all their words. */
  lemma {:induction false} JoinRender(groups: seq<seq<string>>)
    requires forall i :: 0 <= i < |groups| ==> groups[i] != []
    ensures Join(Render(groups), " ") == Join(Flatten(groups), " ")
    decreases |groups|
  {
    if |groups| == 1 {
      assert Render(groups) == [Join(groups[0], " ")];
      assert Flatten(groups) == groups[0] + Flatten([]) == groups[0];
    } else if |groups| > 1 {
      var rest := groups[1..];
      JoinRender(rest);
      assert Render(groups) == [Join(groups[0], " ")] + Render(rest);
      assert Join(Render(groups), " ") == Join(groups[0], " ") + " " + Join(Render(rest), " ");
      assert Flatten(rest) == rest[0] + Flatten(rest[1..]);
      JoinAppend(groups[0], Flatten(rest), " ");
      assert Flatten(groups) == groups[0] + Flatten(rest);
    }
  }

  /** The wrap depends only on the word sequence: re-wrapping the lines
      joined by spaces, at the same width, gives the same lines. */
  lemma RewrapIsStable(text: string, width: int)
    ensures WrapText(Join(WrapText(text, width), " "), width) == WrapText(text, width)
  {
    var groups := WrapLoop(Words(text), [], 0, width);
    WrapLoopIsGreedy(Words(text), [], 0, width, width - 1);
    PackedLines(groups, width - 1, width);
    JoinRender(groups);
    WordsOfJoin(Words(text));
    var joined := Join(WrapText(text, width), " ");
    assert WrapText(text, width) == Render(groups);
    assert Flatten(groups) == Words(text);
    assert joined == Join(Words(text), " ");
    assert Words(joined) == Words(text);
    assert WrapText(joined, width) == Render(WrapLoop(Words(joined), [], 0, width));
  }

  /** The first line is packed to one less than the width: at width 3,
      "a b" (3 characters) is refused as the first line, yet the same
      3 characters "b a" are accepted as the second. */
  lemma FirstLineIsOneShorter()
    ensures WrapText("a b a b", 3) == ["a", "b a", "b"]
  {
    var text := "a b a b";
    assert WrapText(text, 3) == Render(WrapLoop(Words(text), [], 0, 3));
    SplitExample();
    LoopExample();
    RenderExample();
  }

  lemma RenderExample()
    ensures Render([["a"], ["b", "a"], ["b"]]) == ["a", "b a", "b"]
  {
    assert Join(["b", "a"], " ") == "b a";
  }

  lemma SplitExample()
    ensures Words("a b a b") == ["a", "b", "a", "b"]
  {
    var words := ["a", "b", "a", "b"];
    assert Join(words, " ") == "a b a b";
    WordsOfJoin(words);
  }

  lemma LoopExample()
    ensures WrapLoop(["a", "b", "a", "b"], [], 0, 3) == [["a"], ["b", "a"], ["b"]]
  {
    var a, b := "a", "b";
    var words := [a, b, a, b];
    assert words[1..] == [b, a, b] && [b, a, b][1..] == [a, b] && [a, b][1..] == [b] && [b][1..] == [];
    assert WrapLoop([], [b], 1, 3) == [[b]];
    assert WrapLoop([b], [b, a], 3, 3) == [[b, a]] + WrapLoop([], [b], 1, 3);
    assert WrapLoop([a, b], [b], 1, 3) == WrapLoop([b], [b] + [a], 3, 3);
    assert WrapLoop([b, a, b], [a], 2, 3) == [[a]] + WrapLoop([a, b], [b], 1, 3);
    assert WrapLoop(words, [], 0, 3) == WrapLoop([b, a, b], [] + [a], 2, 3);
    assert [] + [a] == [a] && [b] + [a] == [b, a];
    assert [[a]] + ([[b, a]] + [[b]]) == [[a], [b, a], [b]];
  }
}
