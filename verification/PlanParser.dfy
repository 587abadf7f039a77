/** The planner's reply, as text, to the ordered list of sub-prompts. */
module PlanParser {
  import opened Base
  import opened Text

  /** json.loads, as far as the parser looks at it: the items of a JSON array, each as str(item), or None
      when the text is not a JSON array. */
  type Json = string -> Option<seq<string>>

  /** Item k of the result is the k-th non-empty one of the stripped texts. */
  function NonEmptyStripped(texts: seq<string>): (items: seq<string>)
    ensures forall k :: 0 <= k < |items| ==> items[k] != "" && Trimmed(items[k])
  {
    if texts == [] then [] else
    StripTrims(texts[0]);
    (if Strip(texts[0]) == "" then [] else [Strip(texts[0])]) + NonEmptyStripped(texts[1..])
  }

  function FirstBreak(s: string): (e: nat)
    ensures e <= |s|
    ensures forall k :: 0 <= k < e ==> !IsLineBreak(s[k])
    ensures e < |s| ==> IsLineBreak(s[e])
  {
    if s == "" || IsLineBreak(s[0]) then 0 else 1 + FirstBreak(s[1..])
  }

  /** str.splitlines: "\r\n" ends one line, and a final line end starts no further line. */
  function SplitLines(s: string): seq<string>
    decreases |s|
  {
    if s == "" then [] else
    var e := FirstBreak(s);
    if e == |s| then [s]
    else if s[e] == '\r' && e + 1 < |s| && s[e + 1] == '\n' then [s[..e]] + SplitLines(s[e + 2..])
    else [s[..e]] + SplitLines(s[e + 1..])
  }

  /** Length of the run of digits at the start. */
  function DigitRun(digit: char -> bool, s: string): (n: nat)
    ensures n <= |s|
    ensures forall k :: 0 <= k < n ==> digit(s[k])
    ensures n < |s| ==> !digit(s[n])
  {
    if s == "" || !digit(s[0]) then 0 else 1 + DigitRun(digit, s[1..])
  }

  /** Removes one leading bullet or number with the spaces around it, if there is one. */
  function StripBullet(digit: char -> bool, line: string): string {
    var t := StripLeft(line);
    var n := DigitRun(digit, t);
    if t != "" && t[0] in {'-', '*', '+'} then StripLeft(t[1..])
    else if 0 < n < |t| && t[n] in {'.', ')'} then StripLeft(t[n + 1..])
    else line
  }

  function StripBullets(digit: char -> bool, lines: seq<string>): (out: seq<string>)
    ensures |out| == |lines|
    ensures forall k :: 0 <= k < |lines| ==> out[k] == StripBullet(digit, lines[k])
  {
    seq(|lines|, k requires 0 <= k < |lines| => StripBullet(digit, lines[k]))
  }

  function ParsePlan(json: Json, digit: char -> bool, content: string): seq<string> {
    var text := Strip(content);
    if text == "" then [] else
    match json(text)
    case Some(items) => NonEmptyStripped(items)
    case None => NonEmptyStripped(StripBullets(digit, SplitLines(text)))
  }

  /** Every sub-prompt of every parsed plan is non-empty and trimmed. */
  lemma PlanItemsAreClean(json: Json, digit: char -> bool, content: string, k: nat)
    requires k < |ParsePlan(json, digit, content)|
    ensures ParsePlan(json, digit, content)[k] != "" && Trimmed(ParsePlan(json, digit, content)[k])
  {
  }

  // ---- What a plan consists of ----

  /** The items are the stripped texts that are not blank, in order. */
  lemma {:induction false} ItemsArePicked(texts: seq<string>) returns (at: seq<nat>)
    ensures Picked(texts, (t: string) => !Blank(t), (t: string) => Strip(t), NonEmptyStripped(texts), at)
  {
    var keep, make := (t: string) => !Blank(t), (t: string) => Strip(t);
    hide Strip;
    if texts == [] {
      at := [];
    } else {
      var rest := ItemsArePicked(texts[1..]);
      var items := NonEmptyStripped(texts[1..]);
      if keep(texts[0]) {
        PickedTake(texts, keep, make, items, rest);
        at := Prepended(rest);
      } else {
        PickedSkip(texts, keep, make, items, rest);
        at := Shifted(rest);
        assert [] + items == items;
      }
    }
  }

  /** A reply that is a JSON array, as the planner is told to answer, gives the plan its items: stripped, without the
      blank ones, in order. */
  lemma PlanOfJson(json: Json, digit: char -> bool, content: string, items: seq<string>) returns (at: seq<nat>)
    requires !Blank(content) && json(Strip(content)) == Some(items)
    ensures Picked(items, (t: string) => !Blank(t), (t: string) => Strip(t), ParsePlan(json, digit, content), at)
    ensures (forall k :: 0 <= k < |items| ==> items[k] != "" && Trimmed(items[k])) ==>
      ParsePlan(json, digit, content) == items
  {
    at := ItemsArePicked(items);
    if forall k :: 0 <= k < |items| ==> items[k] != "" && Trimmed(items[k]) {
      TrimmedStay(items);
    }
  }

  lemma {:induction false} TrimmedStay(items: seq<string>)
    requires forall k :: 0 <= k < |items| ==> items[k] != "" && Trimmed(items[k])
    ensures NonEmptyStripped(items) == items
  {
    if items != [] {
      StripOfTrimmed(items[0]);
      TrimmedStay(items[1..]);
    }
  }

  /** Any other reply gives it its lines: without their bullets, stripped, without the blank ones, in order. A blank
      reply gives an empty plan. */
  lemma PlanOfProse(json: Json, digit: char -> bool, content: string) returns (lines: seq<string>, at: seq<nat>)
    requires json(Strip(content)).None?
    ensures Blank(content) ==> ParsePlan(json, digit, content) == []
    ensures forall k :: 0 <= k < |lines| ==> OneLine(lines[k])
    ensures Concat(lines) == WithoutBreaks(Strip(content))
    ensures Picked(StripBullets(digit, lines), (t: string) => !Blank(t), (t: string) => Strip(t),
                   ParsePlan(json, digit, content), at)
  {
    lines := SplitLines(Strip(content));
    LinesAreOneLine(Strip(content));
    LinesHoldTheText(Strip(content));
    at := ItemsArePicked(StripBullets(digit, lines));
    hide Strip;
  }

  function Concat(lines: seq<string>): string { if lines == [] then "" else lines[0] + Concat(lines[1..]) }

  function WithoutBreaks(s: string): string {
    if s == "" then "" else (if IsLineBreak(s[0]) then "" else [s[0]]) + WithoutBreaks(s[1..])
  }

  /** Splitting loses nothing but the line breaks. */
  lemma {:induction false} LinesHoldTheText(s: string)
    ensures Concat(SplitLines(s)) == WithoutBreaks(s)
    decreases |s|
  {
    if s != "" {
      var e := FirstBreak(s);
      UpToTheBreak(s, e);
      if e == |s| {
        assert s[e..] == "" && s[..e] == s;
        assert SplitLines(s) == [s];
      } else {
        var n := if s[e] == '\r' && e + 1 < |s| && s[e + 1] == '\n' then e + 2 else e + 1;
        BreaksGo(s, e, n);
        assert SplitLines(s) == [s[..e]] + SplitLines(s[n..]);
        hide SplitLines, WithoutBreaks;
        LinesHoldTheText(s[n..]);
      }
    }
  }

  lemma BreaksGo(s: string, e: nat, n: nat)
    requires e < n <= |s| && n <= e + 2 && forall k :: e <= k < n ==> IsLineBreak(s[k])
    ensures WithoutBreaks(s[e..]) == WithoutBreaks(s[n..])
  {
    assert s[e..][1..] == s[e + 1..];
    if n == e + 2 {
      assert s[e + 1..][1..] == s[e + 2..];
    }
  }

  lemma {:induction false} UpToTheBreak(s: string, e: nat)
    requires e <= |s| && forall k :: 0 <= k < e ==> !IsLineBreak(s[k])
    ensures WithoutBreaks(s) == s[..e] + WithoutBreaks(s[e..])
  {
    if e > 0 {
      UpToTheBreak(s[1..], e - 1);
      assert s[1..][..e - 1] == s[1..e] && s[..e] == [s[0]] + s[1..e] && s[1..][e - 1..] == s[e..];
    } else {
      assert s[0..] == s;
    }
  }

  /** The line is a bullet or a number behind spaces, and the rest. */
  ghost predicate Bulleted(digit: char -> bool, line: string, pre: string, bullet: string, rest: string) {
    line == pre + bullet + rest && AllSpace(pre) && IsBullet(digit, bullet)
  }

  /** A line with a bullet keeps what follows it and its spaces; a line without one stays as it is. */
  lemma BulletsAlone(digit: char -> bool, line: string)
    requires DigitClass(digit)
    ensures forall pre, bullet, rest :: Bulleted(digit, line, pre, bullet, rest) ==>
      StripBullet(digit, line) == StripLeft(rest)
    ensures (forall pre, bullet, rest :: !Bulleted(digit, line, pre, bullet, rest)) ==> StripBullet(digit, line) == line
  {
    hide StripBullet, IsBullet, StripLeft;
    forall pre, bullet, rest | Bulleted(digit, line, pre, bullet, rest)
      ensures StripBullet(digit, line) == StripLeft(rest)
    {
      BulletGoes(digit, pre, bullet, rest);
    }
    if StripBullet(digit, line) != line {
      var pre, bullet, rest := BulletFound(digit, line);
    }
  }

  lemma BulletFound(digit: char -> bool, line: string) returns (pre: string, bullet: string, rest: string)
    requires StripBullet(digit, line) != line
    ensures Bulleted(digit, line, pre, bullet, rest)
  {
    pre := StripLeftTakes(line);
    var t := StripLeft(line);
    var n := DigitRun(digit, t);
    hide StripLeft;
    if t[0] in {'-', '*', '+'} {
      bullet, rest := [t[0]], t[1..];
    } else {
      bullet, rest := t[..n] + [t[n]], t[n + 1..];
      assert |bullet| >= 2 && bullet[|bullet| - 1] == t[n];
    }
    assert t == bullet + rest;
    assert pre + t == pre + bullet + rest;
  }

  lemma BulletGoes(digit: char -> bool, pre: string, bullet: string, rest: string)
    requires DigitClass(digit) && AllSpace(pre) && IsBullet(digit, bullet)
    ensures StripBullet(digit, pre + bullet + rest) == StripLeft(rest)
  {
    BulletShape(digit, bullet);
    var t := bullet + rest;
    assert pre + bullet + rest == pre + t;
    StripLeftSkips(pre, t);
    assert StripLeft(t) == t;
    if |bullet| == 1 {
      assert t[1..] == rest;
    } else {
      NumberGoes(digit, bullet[..|bullet| - 1], bullet[|bullet| - 1], rest);
      assert bullet == bullet[..|bullet| - 1] + [bullet[|bullet| - 1]];
      hide IsBullet, DigitClass, AllSpace;
    }
  }

  lemma NumberGoes(digit: char -> bool, number: string, close: char, rest: string)
    requires DigitClass(digit) && number != "" && close in {'.', ')'}
    requires forall k :: 0 <= k < |number| ==> digit(number[k])
    ensures var t := number + [close] + rest;
      && t[0] !in {'-', '*', '+'} && DigitRun(digit, t) == |number| && t[|number|] == close && t[|number| + 1..] == rest
  {
    var t := number + [close] + rest;
    assert t == number + ([close] + rest);
    assert digit(t[0]);
    DigitRunOf(digit, number, [close] + rest);
  }

  // ---- Round trip ----

  /** A digit class no separator, bullet or bracket belongs to. */
  ghost predicate DigitClass(digit: char -> bool) {
    forall c {:trigger digit(c)} :: digit(c) ==> !IsSpace(c) && c !in {'.', ')', '-', '*', '+', '['}
  }

  /** "-", "*", "+", or a number closed by "." or ")". */
  ghost predicate IsBullet(digit: char -> bool, b: string) {
    || b in {"-", "*", "+"}
    || (|b| >= 2 && b[|b| - 1] in {'.', ')'} && forall k :: 0 <= k < |b| - 1 ==> digit(b[k]))
  }

  predicate OneLine(s: string) { forall k :: 0 <= k < |s| ==> !IsLineBreak(s[k]) }

  ghost predicate CleanItem(s: string) { s != "" && Trimmed(s) && OneLine(s) }

  /** The list printed one item a line, each behind its bullet. */
  function Render(bullets: seq<string>, items: seq<string>): string
    requires |bullets| == |items|
  {
    if items == [] then ""
    else
      var line := bullets[0] + " " + items[0];
      if |items| == 1 then line else line + "\n" + Render(bullets[1..], items[1..])
  }

  lemma {:induction false} FirstBreakAfter(line: string, rest: string)
    requires OneLine(line)
    ensures FirstBreak(line + rest) == |line| + FirstBreak(rest)
  {
    if line == "" {
      assert line + rest == rest;
    } else {
      assert (line + rest)[1..] == line[1..] + rest;
      FirstBreakAfter(line[1..], rest);
    }
  }

  lemma {:induction false} DigitRunOf(digit: char -> bool, number: string, rest: string)
    requires forall k :: 0 <= k < |number| ==> digit(number[k])
    requires rest != "" && !digit(rest[0])
    ensures DigitRun(digit, number + rest) == |number|
  {
    if number == "" {
      assert number + rest == rest;
    } else {
      assert (number + rest)[1..] == number[1..] + rest;
      DigitRunOf(digit, number[1..], rest);
    }
  }

  lemma BulletShape(digit: char -> bool, b: string)
    requires DigitClass(digit) && IsBullet(digit, b)
    ensures b != "" && !IsSpace(b[0]) && b[0] != '[' && OneLine(b)
  {
    forall k | 0 <= k < |b|
      ensures !IsSpace(b[k]) && b[k] != '['
    {
      if k < |b| - 1 {
        assert digit(b[k]);
      } else {
        assert b[k] in {'-', '*', '+', '.', ')'};
      }
    }
    assert OneLine(b);
  }

  lemma NumberComesOff(digit: char -> bool, number: string, close: char, item: string)
    requires DigitClass(digit) && number != "" && close in {'.', ')'} && CleanItem(item)
    requires forall k :: 0 <= k < |number| ==> digit(number[k])
    ensures StripBullet(digit, number + [close] + " " + item) == item
  {
    var rest := [close] + " " + item;
    var line := number + [close] + " " + item;
    assert line == number + rest;
    assert digit(line[0]);
    DigitRunOf(digit, number, rest);
    assert line[|number| + 1..] == " " + item;
    StripLeftSkips(" ", item);
  }

  /** Only the printed bullet goes, even when the item itself starts with one. */
  lemma BulletComesOff(digit: char -> bool, b: string, item: string)
    requires DigitClass(digit) && IsBullet(digit, b) && CleanItem(item)
    ensures StripBullet(digit, b + " " + item) == item
  {
    BulletShape(digit, b);
    if b in {"-", "*", "+"} {
      assert (b + " " + item)[1..] == " " + item;
      StripLeftSkips(" ", item);
    } else {
      assert b == b[..|b| - 1] + [b[|b| - 1]];
      NumberComesOff(digit, b[..|b| - 1], b[|b| - 1], item);
    }
  }

  lemma FirstLine(line: string, rest: string)
    requires OneLine(line) && line != ""
    ensures SplitLines(line + "\n" + rest) == [line] + SplitLines(rest)
    ensures SplitLines(line) == [line]
  {
    var text := line + "\n" + rest;
    assert text == line + ("\n" + rest);
    FirstBreakAfter(line, "\n" + rest);
    assert text[|line| + 1..] == rest && text[..|line|] == line && text[|line|] == '\n';
    FirstBreakAfter(line, "");
    assert line + "" == line;
  }

  lemma CleanItemStays(item: string, texts: seq<string>)
    requires CleanItem(item)
    ensures NonEmptyStripped([item] + texts) == [item] + NonEmptyStripped(texts)
  {
    StripOfTrimmed(item);
    hide Strip;
    assert ([item] + texts)[1..] == texts;
  }

  lemma OneMoreItem(digit: char -> bool, line: string, lines: seq<string>, item: string)
    requires StripBullet(digit, line) == item && CleanItem(item)
    ensures NonEmptyStripped(StripBullets(digit, [line] + lines))
      == [item] + NonEmptyStripped(StripBullets(digit, lines))
  {
    hide StripBullet, Strip, CleanItem, NonEmptyStripped;
    assert ([line] + lines)[1..] == lines;
    assert StripBullets(digit, [line] + lines) == [item] + StripBullets(digit, lines);
    CleanItemStays(item, StripBullets(digit, lines));
  }

  lemma RenderShape(digit: char -> bool, bullets: seq<string>, items: seq<string>)
    requires |bullets| == |items| && DigitClass(digit) && items != []
    requires forall k :: 0 <= k < |items| ==> IsBullet(digit, bullets[k]) && CleanItem(items[k])
    ensures var text := Render(bullets, items); text != "" && Trimmed(text) && text[0] != '['
    decreases |items|
  {
    BulletShape(digit, bullets[0]);
    if |items| > 1 {
      RenderShape(digit, bullets[1..], items[1..]);
    }
  }

  lemma {:induction false} RenderedLines(digit: char -> bool, bullets: seq<string>, items: seq<string>)
    requires |bullets| == |items| && DigitClass(digit)
    requires forall k :: 0 <= k < |items| ==> IsBullet(digit, bullets[k]) && CleanItem(items[k])
    ensures NonEmptyStripped(StripBullets(digit, SplitLines(Render(bullets, items)))) == items
  {
    if items == [] {
      return;
    }
    var line := bullets[0] + " " + items[0];
    BulletShape(digit, bullets[0]);
    BulletComesOff(digit, bullets[0], items[0]);
    assert OneLine(line);
    var more := if |items| == 1 then [] else SplitLines(Render(bullets[1..], items[1..]));
    OneMoreItem(digit, line, more, items[0]);
    if |items| == 1 {
      FirstLine(line, "");
      assert [line] + [] == [line];
      assert StripBullets(digit, []) == [];
      assert items == [items[0]];
    } else {
      FirstLine(line, Render(bullets[1..], items[1..]));
      RenderedLines(digit, bullets[1..], items[1..]);
    }
    hide StripBullet, Strip, SplitLines, IsBullet;
  }

  /** Printing any list of non-empty, trimmed one-line items behind any bullets and parsing it gives the list back. */
  lemma RoundTrip(json: Json, digit: char -> bool, bullets: seq<string>, items: seq<string>)
    requires DigitClass(digit) && |bullets| == |items|
    requires forall text :: json(text).Some? ==> text != "" && text[0] == '['
    requires forall k :: 0 <= k < |items| ==> IsBullet(digit, bullets[k]) && CleanItem(items[k])
    ensures ParsePlan(json, digit, Render(bullets, items)) == items
  {
    var text := Render(bullets, items);
    RenderedLines(digit, bullets, items);
    if items != [] {
      RenderShape(digit, bullets, items);
      StripOfTrimmed(text);
      assert json(text).None?;
    }
  }

  // ---- A reply that is not JSON is parsed once and for all ----

  lemma {:induction false} LinesAreOneLine(s: string)
    ensures forall k :: 0 <= k < |SplitLines(s)| ==> OneLine(SplitLines(s)[k])
    decreases |s|
  {
    if s != "" {
      var e := FirstBreak(s);
      if e < |s| {
        LinesAreOneLine(s[e + 1..]);
        if s[e] == '\r' && e + 1 < |s| && s[e + 1] == '\n' {
          LinesAreOneLine(s[e + 2..]);
        }
      }
    }
  }

  lemma {:induction false} StripLeftOneLine(s: string)
    requires OneLine(s)
    ensures OneLine(StripLeft(s))
  {
    if s != "" && IsSpace(s[0]) {
      StripLeftOneLine(s[1..]);
    }
  }

  lemma BulletOneLine(digit: char -> bool, line: string)
    requires OneLine(line)
    ensures OneLine(Strip(StripBullet(digit, line)))
  {
    StripLeftOneLine(line);
    var t := StripLeft(line);
    if t != "" {
      StripLeftOneLine(t[1..]);
      var n := DigitRun(digit, t);
      if n < |t| {
        StripLeftOneLine(t[n + 1..]);
      }
    }
    StripLeftOneLine(StripBullet(digit, line));
    StripRightShape(StripLeft(StripBullet(digit, line)));
  }

  lemma {:induction false} StrippedFrom(texts: seq<string>)
    requires forall k :: 0 <= k < |texts| ==> OneLine(Strip(texts[k]))
    ensures forall k :: 0 <= k < |NonEmptyStripped(texts)| ==> CleanItem(NonEmptyStripped(texts)[k])
  {
    if texts != [] {
      StrippedFrom(texts[1..]);
      StripTrims(texts[0]);
    }
  }

  /** Any reply that is not a JSON array yields a plan that survives being printed as a list and parsed again. */
  lemma ParsedPlanSurvives(json: Json, digit: char -> bool, content: string, bullets: seq<string>)
    requires DigitClass(digit) && json(Strip(content)).None?
    requires forall text :: json(text).Some? ==> text != "" && text[0] == '['
    requires |bullets| == |ParsePlan(json, digit, content)|
    requires forall k :: 0 <= k < |bullets| ==> IsBullet(digit, bullets[k])
    ensures ParsePlan(json, digit, Render(bullets, ParsePlan(json, digit, content))) == ParsePlan(json, digit, content)
  {
    var lines := SplitLines(Strip(content));
    LinesAreOneLine(Strip(content));
    forall k | 0 <= k < |lines|
      ensures OneLine(Strip(StripBullets(digit, lines)[k]))
    {
      BulletOneLine(digit, lines[k]);
    }
    StrippedFrom(StripBullets(digit, lines));
    RoundTrip(json, digit, bullets, ParsePlan(json, digit, content));
  }
}
