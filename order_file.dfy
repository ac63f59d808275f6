/**
 * The order-file generator (scripts/generate_order_file.py): it reads a raw
 * symbol log one line at a time, keeps each stripped, non-empty line that is
 * not a `[OrderFile]` log line, removes repeats while keeping the first
 * occurrence, and writes the symbols one per line.
 *
 * The file system is reduced to its answers: whether the raw file exists,
 * the lines iterating over it yields, and whether reading or writing raised.
 */
module OrderFile {
  import opened Wrappers
  import opened Text

  /** The prefix of the instrumentation's own log lines, which are not symbols. */
  const LogPrefix := "[OrderFile]"

  /** A stripped line is a symbol iff it is non-empty and not a log line. */
  predicate IsSymbol(stripped: string)
  {
    stripped != "" && !StartsWith(stripped, LogPrefix)
  }

  /** Every line stripped, in order. */
  function StripAll(lines: seq<string>): seq<string>
  {
    seq(|lines|, i requires 0 <= i < |lines| => Strip(lines[i]))
  }

  /** The stripped lines that are symbols, in input order, repeats included. */
  function Symbols(stripped: seq<string>): seq<string>
  {
    if stripped == [] then []
    else
      var last := stripped[|stripped| - 1];
      Symbols(stripped[..|stripped| - 1]) + (if IsSymbol(last) then [last] else [])
  }

  lemma SymbolsStep(stripped: seq<string>, i: nat)
    requires i < |stripped|
    ensures Symbols(stripped[..i + 1]) == Symbols(stripped[..i]) + (if IsSymbol(stripped[i]) then [stripped[i]] else [])
  {
    assert stripped[..i + 1][..i] == stripped[..i];
  }

  /** The symbols of `lines`: stripped, in input order, repeats included. */
  function KeptSymbols(lines: seq<string>): seq<string>
  {
    Symbols(StripAll(lines))
  }

  /** Soundness: every kept symbol is a symbol and one of the stripped lines. */
  lemma {:induction false} SymbolSound(stripped: seq<string>, s: string) returns (i: nat)
    requires s in Symbols(stripped)
    ensures IsSymbol(s) && i < |stripped| && stripped[i] == s
    decreases |stripped|
  {
    var init := stripped[..|stripped| - 1];
    if s in Symbols(init) {
      i := SymbolSound(init, s);
    } else {
      i := |stripped| - 1;
    }
  }

  /** Completeness: every stripped line that is a symbol is kept. */
  lemma {:induction false} SymbolComplete(stripped: seq<string>, i: nat)
    requires i < |stripped| && IsSymbol(stripped[i])
    ensures stripped[i] in Symbols(stripped)
    decreases |stripped|
  {
    var init := stripped[..|stripped| - 1];
    if i < |init| {
      SymbolComplete(init, i);
    }
  }

  /** Symbols of a list of symbols are the list itself. */
  lemma {:induction false} SymbolsOfSymbols(stripped: seq<string>)
    requires forall i :: 0 <= i < |stripped| ==> IsSymbol(stripped[i])
    ensures Symbols(stripped) == stripped
    decreases |stripped|
  {
    if stripped != [] {
      SymbolsOfSymbols(stripped[..|stripped| - 1]);
    }
  }

  /** `xs` without repeats, each element where it first occurs. */
  function Dedup(xs: seq<string>): seq<string>
  {
    if xs == [] then []
    else
      var seen := Dedup(xs[..|xs| - 1]);
      if xs[|xs| - 1] in seen then seen else seen + [xs[|xs| - 1]]
  }

  lemma DedupSnoc(xs: seq<string>, x: string)
    ensures Dedup(xs + [x]) == if x in Dedup(xs) then Dedup(xs) else Dedup(xs) + [x]
  {
    assert (xs + [x])[..|xs|] == xs;
  }

  predicate NoRepeats(xs: seq<string>)
  {
    forall i, j :: 0 <= i < j < |xs| ==> xs[i] != xs[j]
  }

  /** The index of the first occurrence of `x` in `xs`. */
  function FirstIndex(xs: seq<string>, x: string): (k: nat)
    requires x in xs
    ensures k < |xs| && xs[k] == x && x !in xs[..k]
  {
    if xs[0] == x then 0
    else
      var k := 1 + FirstIndex(xs[1..], x);
      assert xs[..k] == [xs[0]] + xs[1..][..k - 1];
      k
  }

  lemma FirstIndexOfPrefix(xs: seq<string>, n: nat, x: string)
    requires n <= |xs| && x in xs[..n]
    ensures x in xs && FirstIndex(xs, x) == FirstIndex(xs[..n], x)
  {
    var k := FirstIndex(xs[..n], x);
    assert xs[..n][..k] == xs[..k];
  }

  /**
   * Removing repeats keeps exactly the elements, repeats none of them, and
   * lists them in the order of their first occurrence.
   */
  lemma {:induction false} DedupCorrect(xs: seq<string>)
    ensures forall x :: x in Dedup(xs) <==> x in xs
    ensures NoRepeats(Dedup(xs))
    ensures forall i, j :: 0 <= i < j < |Dedup(xs)| ==>
      FirstIndex(xs, Dedup(xs)[i]) < FirstIndex(xs, Dedup(xs)[j])
    decreases |xs|
  {
    if xs != [] {
      var init := xs[..|xs| - 1];
      var last := xs[|xs| - 1];
      DedupCorrect(init);
      var d := Dedup(init);
      assert forall x :: x in xs <==> x in init || x == last;
      forall x | x in d
        ensures FirstIndex(xs, x) == FirstIndex(init, x)
      {
        FirstIndexOfPrefix(xs, |xs| - 1, x);
      }
      if last !in d {
        assert last !in init;
        assert FirstIndex(xs, last) == |xs| - 1;
        forall i, j | 0 <= i < j < |d| + 1
          ensures FirstIndex(xs, (d + [last])[i]) < FirstIndex(xs, (d + [last])[j])
        {
          if j < |d| {
            assert (d + [last])[i] == d[i] && (d + [last])[j] == d[j];
          } else {
            assert (d + [last])[i] == d[i];
            assert FirstIndex(init, d[i]) < |init|;
          }
        }
      }
    }
  }

  /** Removing repeats from a list without repeats changes nothing: the generator's output is a fixed point. */
  lemma {:induction false} DedupOfNoRepeats(xs: seq<string>)
    requires NoRepeats(xs)
    ensures Dedup(xs) == xs
    decreases |xs|
  {
    if xs != [] {
      var init := xs[..|xs| - 1];
      assert NoRepeats(init);
      DedupOfNoRepeats(init);
      assert xs[|xs| - 1] !in init;
    }
  }

  function Elements(xs: seq<string>): set<string>
  {
    set x | x in xs
  }

  /** The symbols the generator writes, in order. */
  function OrderedSymbols(lines: seq<string>): seq<string>
  {
    Dedup(KeptSymbols(lines))
  }

  /**
   * The generator writes exactly the symbols among the stripped input lines,
   * each once, in the order in which they first occur.
   */
  lemma OrderedSymbolsExactly(lines: seq<string>)
    ensures forall x :: x in OrderedSymbols(lines) <==>
      IsSymbol(x) && exists i :: 0 <= i < |lines| && Strip(lines[i]) == x
    ensures NoRepeats(OrderedSymbols(lines))
  {
    var stripped := StripAll(lines);
    DedupCorrect(KeptSymbols(lines));
    forall x
      ensures x in OrderedSymbols(lines) <==> IsSymbol(x) && exists i :: 0 <= i < |lines| && Strip(lines[i]) == x
    {
      if x in KeptSymbols(lines) {
        var i := SymbolSound(stripped, x);
        assert Strip(lines[i]) == x;
      }
      if IsSymbol(x) && exists i :: 0 <= i < |lines| && Strip(lines[i]) == x {
        var i :| 0 <= i < |lines| && Strip(lines[i]) == x;
        assert stripped[i] == x;
        SymbolComplete(stripped, i);
      }
    }
  }

  /**
   * The reading loop: `symbolsSeen` holds exactly the symbols already listed,
   * so a symbol is listed the first time it is met and never again.
   */
  method CollectSymbols(lines: seq<string>) returns (orderedSymbols: seq<string>)
    ensures orderedSymbols == OrderedSymbols(lines)
  {
    ghost var stripped := StripAll(lines);
    var symbolsSeen: set<string> := {};
    orderedSymbols := [];
    for i := 0 to |lines|
      invariant orderedSymbols == Dedup(Symbols(stripped[..i]))
      invariant symbolsSeen == Elements(orderedSymbols)
    {
      var symbol := Strip(lines[i]);
      assert symbol == stripped[i];
      SymbolsStep(stripped, i);
      ConsiderSymbol(symbol, stripped[..i], symbolsSeen, orderedSymbols);
      symbolsSeen, orderedSymbols := AddSymbol(symbol, symbolsSeen, orderedSymbols);
    }
    assert stripped[..|lines|] == stripped;
  }

  /** The body of the reading loop, on an already stripped line. */
  method AddSymbol(symbol: string, symbolsSeen: set<string>, orderedSymbols: seq<string>)
    returns (seen: set<string>, ordered: seq<string>)
    requires symbolsSeen == Elements(orderedSymbols)
    ensures seen == Elements(ordered)
    ensures ordered == if IsSymbol(symbol) && symbol !in symbolsSeen then orderedSymbols + [symbol] else orderedSymbols
  {
    seen, ordered := symbolsSeen, orderedSymbols;
    if symbol != "" && !StartsWith(symbol, LogPrefix) {
      if symbol !in seen {
        seen := seen + {symbol};
        ordered := ordered + [symbol];
      }
    }
  }

  /** One step of the reading loop, on an already stripped line. */
  lemma ConsiderSymbol(symbol: string, before: seq<string>, seen: set<string>, ordered: seq<string>)
    requires ordered == Dedup(Symbols(before)) && seen == Elements(ordered)
    ensures Dedup(Symbols(before) + (if IsSymbol(symbol) then [symbol] else []))
         == if IsSymbol(symbol) && symbol !in seen then ordered + [symbol] else ordered
  {
    if IsSymbol(symbol) {
      DedupSnoc(Symbols(before), symbol);
    } else {
      assert Symbols(before) + [] == Symbols(before);
    }
  }

  /** The order file's text: each symbol followed by a newline. */
  function Render(symbols: seq<string>): string
  {
    if symbols == [] then "" else Render(symbols[..|symbols| - 1]) + symbols[|symbols| - 1] + "\n"
  }

  lemma RenderStep(symbols: seq<string>, i: nat)
    requires i < |symbols|
    ensures Render(symbols[..i + 1]) == Render(symbols[..i]) + symbols[i] + "\n"
  {
    assert symbols[..i + 1][..i] == symbols[..i];
  }

  /** The writing loop. */
  method WriteOrderFile(orderedSymbols: seq<string>) returns (content: string)
    ensures content == Render(orderedSymbols)
  {
    content := "";
    for i := 0 to |orderedSymbols|
      invariant content == Render(orderedSymbols[..i])
    {
      RenderStep(orderedSymbols, i);
      content := content + orderedSymbols[i] + "\n";
    }
    assert orderedSymbols[..|orderedSymbols|] == orderedSymbols;
  }

  /**
   * `generate_order_file`: false without output when the raw file is
   * missing or an I/O error is raised, otherwise true with the order file's text.
   */
  method GenerateOrderFile(rawFileExists: bool, rawLines: seq<string>, ioError: bool)
    returns (ok: bool, orderFile: Option<string>)
    ensures ok <==> rawFileExists && !ioError
    ensures !ok ==> orderFile.None?
    ensures ok ==> orderFile == Some(Render(OrderedSymbols(rawLines)))
  {
    if !rawFileExists {
      return false, None;
    }
    var orderedSymbols := CollectSymbols(rawLines);
    if ioError {
      return false, None;
    }
    var content := WriteOrderFile(orderedSymbols);
    return true, Some(content);
  }

  // ---------------------------------------------------------------- reading the order file back

  /** Where the first line of `text` ends: just past its first newline, or at the end. */
  function LineEnd(text: string): (k: nat)
    requires text != ""
    ensures 0 < k <= |text|
    ensures forall j :: 0 <= j < k - 1 ==> text[j] != '\n'
    ensures k < |text| ==> text[k - 1] == '\n'
  {
    if text[0] == '\n' || |text| == 1 then 1 else 1 + LineEnd(text[1..])
  }

  /** The lines Python's iteration over a file with this text yields, each with its newline, for text without carriage returns. */
  function FileLines(text: string): seq<string>
    decreases |text|
  {
    if text == "" then [] else [text[..LineEnd(text)]] + FileLines(text[LineEnd(text)..])
  }

  /** A line as file iteration yields it: a newline can only be its last character. */
  predicate IsFileLine(line: string)
  {
    forall j :: 0 <= j < |line| - 1 ==> line[j] != '\n'
  }

  lemma {:induction false} LineEndOfTerminated(s: string, rest: string)
    requires '\n' !in s
    ensures LineEnd(s + "\n" + rest) == |s| + 1
    decreases |s|
  {
    if s != [] {
      assert (s + "\n" + rest)[1..] == s[1..] + "\n" + rest;
      LineEndOfTerminated(s[1..], rest);
    }
  }

  lemma {:induction false} RenderCons(x: string, ys: seq<string>)
    ensures Render([x] + ys) == x + "\n" + Render(ys)
    decreases |ys|
  {
    if ys != [] {
      var init := ys[..|ys| - 1];
      var last := ys[|ys| - 1];
      assert ([x] + ys)[..|ys|] == [x] + init;
      RenderCons(x, init);
      AppendAssoc(x + "\n", Render(init), last + "\n");
      assert Render([x] + ys) == x + "\n" + Render(init) + last + "\n";
    }
  }

  function WithNewlines(symbols: seq<string>): seq<string>
  {
    seq(|symbols|, i requires 0 <= i < |symbols| => symbols[i] + "\n")
  }

  /** Reading the order file back yields one line per symbol, each with its newline. */
  lemma {:induction false} ReadBackRendered(symbols: seq<string>)
    requires forall i :: 0 <= i < |symbols| ==> '\n' !in symbols[i]
    ensures FileLines(Render(symbols)) == WithNewlines(symbols)
    decreases |symbols|
  {
    if symbols != [] {
      var x := symbols[0];
      var rest := symbols[1..];
      assert symbols == [x] + rest;
      RenderCons(x, rest);
      var text := x + "\n" + Render(rest);
      LineEndOfTerminated(x, Render(rest));
      assert text[..|x| + 1] == x + "\n";
      assert text[|x| + 1..] == Render(rest);
      ReadBackRendered(rest);
    }
  }

  /** Strip leaves a string alone that neither starts nor ends with whitespace. */
  lemma StripOfStripped(s: string)
    requires s != "" && !IsPySpace(s[0]) && !IsPySpace(s[|s| - 1])
    ensures Strip(s) == s
  {
    assert LeadingSpaces(s) == 0;
    assert s[0..] == s;
    assert TrailingSpaces(s) == 0;
  }

  /** Strip removes exactly the newline from such a string followed by a newline. */
  lemma StripOfStrippedLine(s: string)
    requires s != "" && !IsPySpace(s[0]) && !IsPySpace(s[|s| - 1])
    ensures Strip(s + "\n") == s
  {
    var t := s + "\n";
    assert LeadingSpaces(t) == 0;
    assert t[0..] == t;
    assert t[..|t| - 1] == s;
    assert TrailingSpaces(s) == 0;
    assert TrailingSpaces(t) == 1;
  }

  /** A written symbol has no surrounding whitespace and, coming from a file line, no newline. */
  predicate IsWritable(s: string)
  {
    IsSymbol(s) && !IsPySpace(s[0]) && !IsPySpace(s[|s| - 1]) && '\n' !in s
  }

  lemma StrippedFileLineIsWritable(line: string)
    requires IsFileLine(line) && IsSymbol(Strip(line))
    ensures IsWritable(Strip(line))
  {
    var r := Strip(line);
    var k := LeadingSpaces(line);
    forall p | 0 <= p < |r|
      ensures r[p] != '\n'
    {
      assert r[p] == line[k + p];
    }
  }

  lemma KeptSymbolsOfFileLinesWritable(lines: seq<string>)
    requires forall i :: 0 <= i < |lines| ==> IsFileLine(lines[i])
    ensures forall s :: s in KeptSymbols(lines) ==> IsWritable(s)
  {
    forall s | s in KeptSymbols(lines)
      ensures IsWritable(s)
    {
      var i := SymbolSound(StripAll(lines), s);
      StrippedFileLineIsWritable(lines[i]);
    }
  }

  /** The symbols of the lines of a rendered list of writable symbols are that list. */
  lemma KeptSymbolsOfWritten(symbols: seq<string>)
    requires forall i :: 0 <= i < |symbols| ==> IsWritable(symbols[i])
    ensures KeptSymbols(WithNewlines(symbols)) == symbols
  {
    var lines := WithNewlines(symbols);
    forall i | 0 <= i < |symbols|
      ensures StripAll(lines)[i] == symbols[i]
    {
      StripOfStrippedLine(symbols[i]);
    }
    assert StripAll(lines) == symbols;
    SymbolsOfSymbols(symbols);
  }

  /**
   * Running the generator on its own output gives the same output: the
   * written symbols are read back unchanged, none is dropped, and there is
   * no repeat left to remove.
   */
  lemma GeneratorIdempotent(lines: seq<string>)
    requires forall i :: 0 <= i < |lines| ==> IsFileLine(lines[i])
    ensures OrderedSymbols(FileLines(Render(OrderedSymbols(lines)))) == OrderedSymbols(lines)
  {
    var symbols := OrderedSymbols(lines);
    DedupCorrect(KeptSymbols(lines));
    KeptSymbolsOfFileLinesWritable(lines);
    assert forall i :: 0 <= i < |symbols| ==> IsWritable(symbols[i]);
    ReadBackRendered(symbols);
    KeptSymbolsOfWritten(symbols);
    DedupOfNoRepeats(symbols);
  }
}
