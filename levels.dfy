/**
 * The static level table of `sethlement.init` (Blevels.js:5-6, 19-30): a text
 * block of `label, price` lines parsed once into an ordered list of levels.
 */
module Levels {
  import opened Wrappers
  import opened JsText

  /** One manually curated reference level. */
  datatype Level = Level(name: string, price: real)

  /** The lines of the embedded level text, in order. */
  const DefaultLevelLines: seq<string> := [
    "PDH , 24913.5",
    "PDL / yNYL, 24627",
    "PDC, 24831.5",
    "yNYH, 24899.25",
    "GX H, 24793.5",
    "GX L , 24694.25",
    "BB H, 25131",
    "BB L, 23456",
    "D20, 24293",
    "D5, 24797",
    "yVAH, 24800.75",
    "yPOC , 24724.5",
    "yVAL, 24630",
    "Mon.H ETH/RTH, 25027.25",
    "Mon.L, 24748.75",
    "PDL / Tue.L - RTH, 24780.5",
    "Mon.L - RTH, 24814.25",
    "PW VAH, 24742",
    "PW POC, 24537",
    "PW VAL, 24322.75",
    "PW H, 24888",
    "PW L , 24242"
  ]

  /** The embedded level text: the lines above separated by newlines. */
  function DefaultLevelText(): string {
    Join(seq(|DefaultLevelLines|, k requires 0 <= k < |DefaultLevelLines| => DefaultLevelLines[k]), '\n')
  }

  /** `line.split(',').map(s => s.trim())`. */
  function Fields(line: string): (r: seq<string>)
    ensures |r| == Count(line, ',') + 1
  {
    var parts := Split(line, ',');
    seq(|parts|, k requires 0 <= k < |parts| => Trim(parts[k]))
  }

  /**
   * The level one line contributes: a line is kept only when it has exactly two
   * fields and `parseFloat` of the second (with commas removed) is a number.
   */
  function ParseLine(line: string): Option<Level> {
    var parts := Fields(line);
    if |parts| == 2 then
      match ParseFloat(RemoveCommas(parts[1]))
      case Some(price) => Some(Level(parts[0], price))
      case None => None
    else None
  }

  /** The present results of `f` over `xs`, in order: a filter-map. */
  function KeepSome<A, B>(f: A -> Option<B>, xs: seq<A>): (r: seq<B>)
    ensures |r| <= |xs|
  {
    if |xs| == 0 then []
    else
      var last := f(xs[|xs| - 1]);
      KeepSome(f, xs[..|xs| - 1]) + (if last.Some? then [last.value] else [])
  }

  /** The levels of a list of lines: the kept lines' levels, in line order. */
  function ParseLevels(lines: seq<string>): seq<Level> {
    KeepSome(ParseLine, lines)
  }

  /**
   * The parsing loop of `init`: split the text into lines and push the level of
   * every line that has two fields and a numeric price.
   */
  method ParseLevelText(text: string) returns (levels: seq<Level>)
    ensures levels == ParseLevels(Split(text, '\n'))
  {
    levels := [];
    var lines := Split(text, '\n');
    for n := 0 to |lines|
      invariant levels == ParseLevels(lines[..n])
    {
      ParseLevelsStep(lines, n);
      var parts := Fields(lines[n]);
      if |parts| == 2 {
        var name := parts[0];
        var price := ParseFloat(RemoveCommas(parts[1]));
        if price.Some? {
          levels := levels + [Level(name, price.value)];
        }
      }
    }
    assert lines[..|lines|] == lines;
  }

  /** Parsing one more line appends that line's level, if it has one. */
  lemma ParseLevelsStep(lines: seq<string>, n: nat)
    requires n < |lines|
    ensures ParseLevels(lines[..n + 1]) ==
              ParseLevels(lines[..n]) + (if ParseLine(lines[n]).Some? then [ParseLine(lines[n]).value] else [])
  {
    assert lines[..n + 1][..n] == lines[..n];
  }

  /**
   * A line is kept exactly when it contains one comma and its trimmed second
   * field starts like a number; the level is then the trimmed first field (which
   * has no comma and no surrounding whitespace) and `parseFloat` of the trimmed
   * second field.
   */
  lemma ParseLineKept(line: string)
    ensures ParseLine(line).Some? <==>
              Count(line, ',') == 1 && StartsDecimal(Trim(Split(line, ',')[1]))
    ensures ParseLine(line).Some? ==>
              var fields := Split(line, ',');
              var level := ParseLine(line).value;
              && level.name == Trim(fields[0])
              && level.price == ParseFloat(Trim(fields[1])).value
              && ',' !in level.name
              && (|level.name| > 0 ==> !IsWhitespace(level.name[0]))
              && (|level.name| > 0 ==> !IsWhitespace(level.name[|level.name| - 1]))
  {
    var fields := Split(line, ',');
    if Count(line, ',') == 1 {
      TrimNoComma(fields[0]);
      TrimNoComma(fields[1]);
      RemoveCommasNoop(Trim(fields[1]));
    }
  }

  /** Trimming a comma-free string leaves it comma-free. */
  lemma TrimNoComma(s: string)
    requires ',' !in s
    ensures ',' !in Trim(s)
  {
  }

  /** A line without a comma has one field and is skipped. */
  lemma ParseLineNoComma(line: string)
    requires ',' !in line
    ensures ParseLine(line) == None
  {
    CountAbsent(line, ',');
  }

  /** `label-field,price-field` with comma-free fields. */
  lemma ParseLineOf(x: string, y: string)
    requires ',' !in x && ',' !in y
    ensures ParseLine(x + "," + y) ==
              if StartsDecimal(Trim(y)) then Some(Level(Trim(x), ParseFloat(Trim(y)).value)) else None
  {
    SplitAfterField(x, ',', y);
    SplitNoSeparator(y, ',');
    ParseLineKept(x + "," + y);
  }

  /** A filter-map distributes over concatenation: order is kept and nothing is invented. */
  lemma {:induction false} KeepSomeAppend<A, B>(f: A -> Option<B>, a: seq<A>, b: seq<A>)
    ensures KeepSome(f, a + b) == KeepSome(f, a) + KeepSome(f, b)
  {
    if |b| == 0 {
      assert a + b == a;
    } else {
      var b' := b[..|b| - 1];
      KeepSomeAppend(f, a, b');
      assert (a + b)[..|a + b| - 1] == a + b';
      assert (a + b)[|a + b| - 1] == b[|b| - 1];
    }
  }

  /** A value is produced exactly when `f` gives it for some element. */
  lemma {:induction false} KeepSomeMembership<A, B>(f: A -> Option<B>, xs: seq<A>, y: B)
    ensures y in KeepSome(f, xs) <==> exists k :: 0 <= k < |xs| && f(xs[k]) == Some(y)
  {
    if |xs| > 0 {
      var init := xs[..|xs| - 1];
      KeepSomeMembership(f, init, y);
      if exists k :: 0 <= k < |init| && f(init[k]) == Some(y) {
        var k :| 0 <= k < |init| && f(init[k]) == Some(y);
        assert xs[k] == init[k];
      }
      if exists k :: 0 <= k < |xs| && f(xs[k]) == Some(y) {
        var k :| 0 <= k < |xs| && f(xs[k]) == Some(y);
        if k < |init| {
          assert init[k] == xs[k];
        }
      }
    }
  }

  /** When `f` gives a value for every element, the k-th result is the k-th element's. */
  lemma {:induction false} KeepSomeAllPresent<A, B>(f: A -> Option<B>, xs: seq<A>)
    requires forall k :: 0 <= k < |xs| ==> f(xs[k]).Some?
    ensures |KeepSome(f, xs)| == |xs|
    ensures forall k :: 0 <= k < |xs| ==> KeepSome(f, xs)[k] == f(xs[k]).value
  {
    if |xs| > 0 {
      KeepSomeAllPresent(f, xs[..|xs| - 1]);
    }
  }

  /** No character of `s` is a comma or a newline. */
  predicate PlainField(s: string) {
    forall k :: 0 <= k < |s| ==> s[k] != ',' && s[k] != '\n'
  }

  /** The membership form of `PlainField`, stated apart to keep `LineKept` cheap to verify. */
  lemma PlainFieldChars(s: string)
    requires PlainField(s)
    ensures ',' !in s && '\n' !in s
  {
  }

  /** A `label, price` line whose price field is a blank followed by a digit is kept. */
  lemma LineKept(line: string, x: string, y: string)
    requires line == x + "," + y && PlainField(x) && PlainField(y)
    requires |y| > 1 && y[0] == ' ' && IsDigit(y[1])
    ensures ParseLine(line).Some? && '\n' !in line
  {
    PlainFieldChars(x);
    PlainFieldChars(y);
    assert '\n' !in line;
    PriceFieldStartsDecimal(y);
    ParseLineOf(x, y);
  }

  lemma PriceFieldStartsDecimal(y: string)
    requires |y| > 1 && y[0] == ' ' && IsDigit(y[1])
    ensures StartsDecimal(Trim(y))
  {
    TrimLeadingBlank(y);
    StartsDecimalDigit(Trim(y));
  }

  /** The embedded table yields 22 levels, the first being `PDH` at 24913.5. */
  lemma DefaultLevels()
    ensures |ParseLevels(Split(DefaultLevelText(), '\n'))| == 22
    ensures ParseLevels(Split(DefaultLevelText(), '\n'))[0] == Level("PDH", 24913.5)
  {
    forall k | 0 <= k < |DefaultLevelLines|
      ensures ParseLine(DefaultLevelLines[k]).Some? && '\n' !in DefaultLevelLines[k]
    {
      DefaultLineKept(k);
    }
    assert seq(|DefaultLevelLines|, k requires 0 <= k < |DefaultLevelLines| => DefaultLevelLines[k]) == DefaultLevelLines;
    SplitJoin(DefaultLevelLines, '\n');
    KeepSomeAllPresent(ParseLine, DefaultLevelLines);
    FirstDefaultLevel();
  }

  /**
   * Every line of the embedded text has one comma and a price starting with a
   * digit. The lines are checked in groups of three or four by the
   * `DefaultLineKeptFrom` lemmas below, which differ only in their lines; the
   * grouping keeps each proof small for the solver.
   */
  lemma DefaultLineKept(k: nat)
    requires k < |DefaultLevelLines|
    ensures ParseLine(DefaultLevelLines[k]).Some? && '\n' !in DefaultLevelLines[k]
  {
    if k < 3 { DefaultLineKeptFrom0(k); }
    else if k < 6 { DefaultLineKeptFrom3(k); }
    else if k < 9 { DefaultLineKeptFrom6(k); }
    else if k < 12 { DefaultLineKeptFrom9(k); }
    else if k < 15 { DefaultLineKeptFrom12(k); }
    else if k < 18 { DefaultLineKeptFrom15(k); }
    else { DefaultLineKeptFrom18(k); }
  }

  lemma DefaultLineKeptFrom0(k: nat)
    requires 0 <= k < 3
    ensures ParseLine(DefaultLevelLines[k]).Some? && '\n' !in DefaultLevelLines[k]
  {
    if k == 0 { LineKept(DefaultLevelLines[k], "PDH ", " 24913.5"); }
    else if k == 1 { LineKept(DefaultLevelLines[k], "PDL / yNYL", " 24627"); }
    else { LineKept(DefaultLevelLines[k], "PDC", " 24831.5"); }
  }

  lemma DefaultLineKeptFrom3(k: nat)
    requires 3 <= k < 6
    ensures ParseLine(DefaultLevelLines[k]).Some? && '\n' !in DefaultLevelLines[k]
  {
    if k == 3 { LineKept(DefaultLevelLines[k], "yNYH", " 24899.25"); }
    else if k == 4 { LineKept(DefaultLevelLines[k], "GX H", " 24793.5"); }
    else { LineKept(DefaultLevelLines[k], "GX L ", " 24694.25"); }
  }

  lemma DefaultLineKeptFrom6(k: nat)
    requires 6 <= k < 9
    ensures ParseLine(DefaultLevelLines[k]).Some? && '\n' !in DefaultLevelLines[k]
  {
    if k == 6 { LineKept(DefaultLevelLines[k], "BB H", " 25131"); }
    else if k == 7 { LineKept(DefaultLevelLines[k], "BB L", " 23456"); }
    else { LineKept(DefaultLevelLines[k], "D20", " 24293"); }
  }

  lemma DefaultLineKeptFrom9(k: nat)
    requires 9 <= k < 12
    ensures ParseLine(DefaultLevelLines[k]).Some? && '\n' !in DefaultLevelLines[k]
  {
    if k == 9 { LineKept(DefaultLevelLines[k], "D5", " 24797"); }
    else if k == 10 { LineKept(DefaultLevelLines[k], "yVAH", " 24800.75"); }
    else { LineKept(DefaultLevelLines[k], "yPOC ", " 24724.5"); }
  }

  lemma DefaultLineKeptFrom12(k: nat)
    requires 12 <= k < 15
    ensures ParseLine(DefaultLevelLines[k]).Some? && '\n' !in DefaultLevelLines[k]
  {
    if k == 12 { LineKept(DefaultLevelLines[k], "yVAL", " 24630"); }
    else if k == 13 { LineKept(DefaultLevelLines[k], "Mon.H ETH/RTH", " 25027.25"); }
    else { LineKept(DefaultLevelLines[k], "Mon.L", " 24748.75"); }
  }

  lemma DefaultLineKeptFrom15(k: nat)
    requires 15 <= k < 18
    ensures ParseLine(DefaultLevelLines[k]).Some? && '\n' !in DefaultLevelLines[k]
  {
    if k == 15 { LineKept(DefaultLevelLines[k], "PDL / Tue.L - RTH", " 24780.5"); }
    else if k == 16 { LineKept(DefaultLevelLines[k], "Mon.L - RTH", " 24814.25"); }
    else { LineKept(DefaultLevelLines[k], "PW VAH", " 24742"); }
  }

  lemma DefaultLineKeptFrom18(k: nat)
    requires 18 <= k < 22
    ensures ParseLine(DefaultLevelLines[k]).Some? && '\n' !in DefaultLevelLines[k]
  {
    if k == 18 { LineKept(DefaultLevelLines[k], "PW POC", " 24537"); }
    else if k == 19 { LineKept(DefaultLevelLines[k], "PW VAL", " 24322.75"); }
    else if k == 20 { LineKept(DefaultLevelLines[k], "PW H", " 24888"); }
    else { LineKept(DefaultLevelLines[k], "PW L ", " 24242"); }
  }

  /** The first line, `PDH , 24913.5`, parses to `PDH` at 24913.5 (the label is trimmed). */
  lemma FirstDefaultLevel()
    ensures ParseLine("PDH , 24913.5") == Some(Level("PDH", 24913.5))
  {
    assert "PDH , 24913.5" == "PDH " + "," + " 24913.5";
    assert ',' !in "PDH " && ',' !in " 24913.5";
    FirstLabel();
    FirstPrice();
    ParseLineOfValues("PDH ", " 24913.5", "PDH", 24913.5);
  }

  lemma ParseLineOfValues(x: string, y: string, name: string, price: real)
    requires ',' !in x && ',' !in y
    requires Trim(x) == name && ParseFloat(Trim(y)) == Some(price)
    ensures ParseLine(x + "," + y) == Some(Level(name, price))
  {
    ParseLineOf(x, y);
  }

  lemma FirstLabel()
    ensures Trim("PDH ") == "PDH"
  {
    assert !IsWhitespace('P') && !IsWhitespace('H') && IsWhitespace(' ');
    assert TrimStart("PDH ") == "PDH ";
    assert TrimEndIndex("PDH ", 0, 4) == 3;
  }

  lemma FirstPrice()
    ensures ParseFloat(Trim(" 24913.5")) == Some(24913.5)
  {
    FirstPriceTrim();
    FirstPriceValue();
  }

  lemma FirstPriceTrim()
    ensures Trim(" 24913.5") == "24913.5"
  {
    assert " 24913.5"[1..] == "24913.5";
    assert !IsWhitespace('2') && !IsWhitespace('5');
  }

  lemma FirstPriceValue()
    ensures ParseFloat("24913.5") == Some(24913.5)
  {
    assert "24913.5" == "24913" + "." + "5";
    ParseFloatDecimal("24913", "5");
    FirstPriceDecimal();
  }

  lemma FirstPriceDecimal()
    ensures AllDigits("24913") && AllDigits("5")
    ensures DecimalValue("24913", "5", 0) == 24913.5
  {
    assert "24913" + "5" == "249135";
    FirstPriceDigits();
    assert Scale(249135.0, -1) == Scale(249135.0, 0) / 10.0;
  }

  lemma FirstPriceDigits()
    ensures AllDigits("249135") && DigitsValue("249135") == 249135
  {
    assert "249135"[..5] == "24913";
    assert "24913"[..4] == "2491";
    assert "2491"[..3] == "249";
    assert "249"[..2] == "24";
    assert "24"[..1] == "2";
    assert "2"[..0] == "";
  }
}
