/**
 Source text as numbered lines, and rows of a projection joined to one text
 (portal/review-ui/editor-model.js). A character stands for one UTF-16 unit.
 */
module ReviewLines {
  import opened Wrappers

  datatype Line = Line(text: string, from: nat, number: nat)

  function Texts(lines: seq<Line>): seq<string> {
    seq(|lines|, k requires 0 <= k < |lines| => lines[k].text)
  }

  /** The texts with a newline between neighbours. */
  function Join(texts: seq<string>): string {
    if texts == [] then ""
    else if |texts| == 1 then texts[0]
    else Join(texts[..|texts| - 1]) + "\n" + texts[|texts| - 1]
  }

  /** Numbers count from one and offsets leave room for one newline after each line. */
  ghost predicate Numbered(lines: seq<Line>) {
    && (forall k :: 0 <= k < |lines| ==> lines[k].number == k + 1)
    && (lines != [] ==> lines[0].from == 0)
    && forall k :: 0 < k < |lines| ==> lines[k].from == lines[k - 1].from + |lines[k - 1].text| + 1
  }

  function EndOf(lines: seq<Line>): nat {
    if lines == [] then 0 else lines[|lines| - 1].from + |lines[|lines| - 1].text| + 1
  }

  predicate EndsLine(text: string) {
    text != "" && text[|text| - 1] == '\n'
  }

  /** `lines` are the lines of `text`: a newline ends a line, and only the last line may lack one. */
  ghost predicate LinesOf(text: string, lines: seq<Line>) {
    && Numbered(lines)
    && (forall k :: 0 <= k < |lines| ==> '\n' !in lines[k].text)
    && (lines == [] <==> text == "")
    && text == if EndsLine(text) then Join(Texts(lines)) + "\n" else Join(Texts(lines))
  }

  lemma TextsAppend(lines: seq<Line>, line: Line)
    ensures Texts(lines + [line]) == Texts(lines) + [line.text]
  {
  }

  lemma JoinAppend(texts: seq<string>, text: string)
    requires texts != []
    ensures Join(texts + [text]) == Join(texts) + "\n" + text
  {
    assert (texts + [text])[..|texts|] == texts;
  }

  lemma {:induction false} JoinLength(lines: seq<Line>)
    requires Numbered(lines)
    ensures |Join(Texts(lines))| == if lines == [] then 0 else EndOf(lines) - 1
  {
    if |lines| > 1 {
      var init := lines[..|lines| - 1];
      assert lines == init + [lines[|lines| - 1]];
      TextsAppend(init, lines[|lines| - 1]);
      JoinAppend(Texts(init), lines[|lines| - 1].text);
      JoinLength(init);
    }
  }

  lemma InFront(head: string, tail: string, from: nat, to: nat)
    requires from <= to <= |head|
    ensures (head + tail)[from..to] == head[from..to]
  {
  }

  lemma Behind(head: string, tail: string)
    ensures (head + tail)[|head|..|head| + |tail|] == tail
  {
  }

  lemma Assoc(a: string, b: string, c: string)
    ensures (a + b) + c == a + (b + c)
  {
  }

  /** What the last line adds to the joined text, and where it starts. */
  lemma LastLine(lines: seq<Line>)
    requires Numbered(lines) && |lines| > 1
    ensures var init, last := lines[..|lines| - 1], lines[|lines| - 1];
      && Numbered(init) && Join(Texts(lines)) == Join(Texts(init)) + "\n" + last.text
        && last.from == |Join(Texts(init))| + 1
  {
    var init, last := lines[..|lines| - 1], lines[|lines| - 1];
    assert lines == init + [last];
    TextsAppend(init, last);
    JoinAppend(Texts(init), last.text);
    JoinLength(init);
  }

  /** Every line is found in the joined text at its offset. */
  lemma {:induction false} LineAt(lines: seq<Line>, k: nat)
    requires Numbered(lines) && k < |lines|
    ensures lines[k].from + |lines[k].text| <= |Join(Texts(lines))|
    ensures Join(Texts(lines))[lines[k].from..lines[k].from + |lines[k].text|] == lines[k].text
  {
    if |lines| > 1 {
      LastLine(lines);
      hide Join, Texts, Numbered;
      var init, last := lines[..|lines| - 1], lines[|lines| - 1];
      var j := Join(Texts(init));
      if k < |init| {
        LineAt(init, k);
        Assoc(j, "\n", last.text);
        InFront(j, "\n" + last.text, lines[k].from, lines[k].from + |lines[k].text|);
      } else {
        Behind(j + "\n", last.text);
      }
    }
  }

  /** String#split("\n"): the pieces between newlines, at least one. */
  method Split(text: string) returns (parts: seq<string>)
    ensures parts != [] && Join(parts) == text && forall k :: 0 <= k < |parts| ==> '\n' !in parts[k]
  {
    parts := [""];
    for i := 0 to |text|
      invariant parts != [] && Join(parts) == text[..i] && forall k :: 0 <= k < |parts| ==> '\n' !in parts[k]
    {
      var init, last := parts[..|parts| - 1], parts[|parts| - 1];
      assert text[..i + 1] == text[..i] + [text[i]];
      SplitStep(parts, text[i]);
      parts := if text[i] == '\n' then parts + [""] else init + [last + [text[i]]];
    }
    assert text[..|text|] == text;
  }

  /** One more character ends the last piece or makes it longer. */
  lemma SplitStep(parts: seq<string>, c: char)
    requires parts != []
    ensures Join(parts + [""]) == Join(parts) + "\n"
    ensures Join(parts[..|parts| - 1] + [parts[|parts| - 1] + [c]]) == Join(parts) + [c]
  {
    var init, last := parts[..|parts| - 1], parts[|parts| - 1];
    assert parts == init + [last];
    JoinAppend(parts, "");
    if init != [] {
      JoinAppend(init, last);
      JoinAppend(init, last + [c]);
      hide Join;
      Assoc(Join(init) + "\n", last, [c]);
    } else {
      JoinOne(last);
      JoinOne(last + [c]);
      hide Join;
      assert [] + [last + [c]] == [last + [c]];
    }
  }

  lemma JoinOne(text: string)
    ensures Join([text]) == text
  {
  }

  /** sourceLines: the pieces of the text, without the empty one after a final newline. */
  method SourceLines(text: string) returns (lines: seq<Line>)
    ensures LinesOf(text, lines)
  {
    var parts := Split(text);
    lines := [];
    var from := 0;
    var i := 0;
    while i < |parts| && from < |text|
      invariant i <= |parts| && |lines| == i && Texts(lines) == parts[..i] && Numbered(lines)
      invariant from == EndOf(lines) && (lines != [] ==> lines[|lines| - 1].from < |text|)
    {
      var line := Line(parts[i], from, |lines| + 1);
      TextsAppend(lines, line);
      assert parts[..i + 1] == parts[..i] + [parts[i]];
      lines, from, i := lines + [line], from + |parts[i]| + 1, i + 1;
    }
    SplitEnds(text, parts, lines, i);
  }

  /** The pieces that were not used are at most the one empty piece after a final newline. */
  lemma SplitEnds(text: string, parts: seq<string>, lines: seq<Line>, i: nat)
    requires parts != [] && Join(parts) == text && forall k :: 0 <= k < |parts| ==> '\n' !in parts[k]
    requires i <= |parts| && |lines| == i && Texts(lines) == parts[..i] && Numbered(lines)
    requires i == |parts| || EndOf(lines) >= |text|
    requires lines != [] ==> lines[|lines| - 1].from < |text|
    ensures LinesOf(text, lines)
  {
    JoinLength(lines);
    forall k | 0 <= k < |lines| ensures '\n' !in lines[k].text {
      assert lines[k].text == Texts(lines)[k] == parts[..i][k];
    }
    hide Join, Numbered;
    if i == |parts| {
      assert parts[..i] == parts;
      NoFinalNewline(parts);
      assert lines[|lines| - 1].text == Texts(lines)[|lines| - 1];
    } else if i > 0 {
      JoinPrefix(parts, i);
      NothingAfter(text, Join(parts[..i]), Join(parts[i..]));
    }
  }

  lemma NothingAfter(text: string, head: string, rest: string)
    requires text == head + "\n" + rest && |head| + 1 >= |text|
    ensures EndsLine(text) && text == head + "\n"
  {
    assert |text| == |head| + 1 + |rest|;
    assert rest == "";
  }

  lemma {:induction false} JoinPrefix(parts: seq<string>, i: nat)
    requires 0 < i < |parts|
    ensures Join(parts) == Join(parts[..i]) + "\n" + Join(parts[i..])
    decreases |parts|
  {
    var init, last := parts[..|parts| - 1], parts[|parts| - 1];
    assert parts == init + [last];
    JoinAppend(init, last);
    if i < |init| {
      JoinPrefix(init, i);
      assert init[..i] == parts[..i] && parts[i..] == init[i..] + [last];
      JoinAppend(init[i..], last);
    } else {
      assert parts[..i] == init && parts[i..] == [last];
    }
  }

  lemma NoFinalNewline(parts: seq<string>)
    requires parts != [] && forall k :: 0 <= k < |parts| ==> '\n' !in parts[k]
    ensures EndsLine(Join(parts)) ==> parts[|parts| - 1] == ""
  {
    var last := parts[|parts| - 1];
    if last != "" {
      assert Join(parts)[|Join(parts)| - 1] == last[|last| - 1];
    }
  }
}
