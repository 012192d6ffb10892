/** The README example extractor of tests/examples/testutil/parser.go: the
    section-name sanitiser, the fenced-block scanner over a sequence of
    lines, and the option injector that finds a ctor call's closing
    parenthesis. Characters stand for bytes, except in the sanitiser, where
    `strings.Map` works on runes and a character stands for one rune. */
module Parser {
  import opened Wrappers
  import opened Text

  // ---------------------------------------------------------------------
  // sanitizeSection

  predicate IsAlnum(c: char) {
    ('a' <= c <= 'z') || ('A' <= c <= 'Z') || ('0' <= c <= '9')
  }

  /** The strings.Map step: every rune that is not an ASCII letter or digit
      becomes '_'. */
  function MapAlnum(s: string): (r: string)
    ensures |r| == |s|
    ensures forall i :: 0 <= i < |s| ==> r[i] == if IsAlnum(s[i]) then s[i] else '_'
  {
    seq(|s|, i requires 0 <= i < |s| => if IsAlnum(s[i]) then s[i] else '_')
  }

  /** strings.ReplaceAll(s, "__", "_"): non-overlapping, left to right, so
      "___" becomes "__". */
  function ReplaceDoubles(s: string): (r: string)
    ensures |r| <= |s|
    ensures |s| > 0 ==> |r| > 0 && r[0] == s[0]
    decreases |s|
  {
    if |s| < 2 then s
    else if s[0] == '_' && s[1] == '_' then ['_'] + ReplaceDoubles(s[2..])
    else [s[0]] + ReplaceDoubles(s[1..])
  }

  predicate NoDouble(s: string) {
    forall i :: 0 <= i < |s| - 1 ==> !(s[i] == '_' && s[i + 1] == '_')
  }

  lemma ContainsDouble(s: string)
    ensures Contains(s, "__") <==> !NoDouble(s)
  {
    if Contains(s, "__") {
      var i := Index(s, "__").value;
      assert s[i..i + 2] == "__";
      assert s[i] == '_' && s[i + 1] == '_';
    } else {
      forall i | 0 <= i < |s| - 1
        ensures !(s[i] == '_' && s[i + 1] == '_')
      {
        assert !HasPrefix(s[i..], "__");
      }
    }
  }

  lemma {:induction false} ReplaceDoublesShrinks(s: string)
    requires !NoDouble(s)
    ensures |ReplaceDoubles(s)| < |s|
    decreases |s|
  {
    if !(s[0] == '_' && s[1] == '_') {
      var i :| 0 <= i < |s| - 1 && s[i] == '_' && s[i + 1] == '_';
      assert s[1..][i - 1] == s[i] && s[1..][i] == s[i + 1];
      ReplaceDoublesShrinks(s[1..]);
    }
  }

  /** Every run of underscores shortened to a single one. */
  function Squeeze(s: string): (r: string)
    ensures |r| <= |s|
    ensures |s| > 0 ==> |r| > 0 && r[0] == s[0]
    decreases |s|
  {
    if |s| < 2 then s
    else if s[0] == '_' && s[1] == '_' then Squeeze(s[1..])
    else [s[0]] + Squeeze(s[1..])
  }

  /** Squeezing only drops characters. */
  lemma {:induction false} SqueezeChars(s: string)
    ensures forall i :: 0 <= i < |Squeeze(s)| ==> Squeeze(s)[i] in s
    decreases |s|
  {
    if |s| >= 2 {
      SqueezeChars(s[1..]);
      var r := Squeeze(s);
      var q := Squeeze(s[1..]);
      if s[0] == '_' && s[1] == '_' {
        assert forall i :: 0 <= i < |q| ==> q[i] in s[1..];
      } else {
        assert r == [s[0]] + q;
        forall i | 1 <= i < |r|
          ensures r[i] in s
        {
          assert r[i] == q[i - 1];
        }
      }
    }
  }

  lemma SqueezeCons(c: char, u: string)
    ensures Squeeze([c] + u) == if c == '_' && |u| > 0 && u[0] == '_' then Squeeze(u) else [c] + Squeeze(u)
  {
    assert ([c] + u)[1..] == u;
  }

  /** One ReplaceAll pass does not change what squeezing gives. */
  lemma {:induction false} ReplaceDoublesSqueeze(s: string)
    ensures Squeeze(ReplaceDoubles(s)) == Squeeze(s)
    decreases |s|
  {
    if |s| >= 2 {
      if s[0] == '_' && s[1] == '_' {
        ReplaceDoublesSqueeze(s[2..]);
        DoubleStep(s);
      } else {
        ReplaceDoublesSqueeze(s[1..]);
        SingleStep(s);
      }
    }
  }

  /** A leading "__" becomes one '_', which squeezing would leave anyway. */
  lemma DoubleStep(s: string)
    requires |s| >= 2 && s[0] == '_' && s[1] == '_'
    requires Squeeze(ReplaceDoubles(s[2..])) == Squeeze(s[2..])
    ensures Squeeze(ReplaceDoubles(s)) == Squeeze(s)
  {
    SqueezeDouble(s);
    UnderscoreTail(s[2..]);
  }

  lemma SqueezeDouble(s: string)
    requires |s| >= 2 && s[0] == '_' && s[1] == '_'
    ensures Squeeze(s) == Squeeze(['_'] + s[2..])
  {
    assert s[1..] == ['_'] + s[2..];
  }

  /** Behind one '_', a ReplaceAll pass still squeezes like its input. */
  lemma UnderscoreTail(t: string)
    requires Squeeze(ReplaceDoubles(t)) == Squeeze(t)
    ensures Squeeze(['_'] + ReplaceDoubles(t)) == Squeeze(['_'] + t)
  {
    SqueezeCons('_', ReplaceDoubles(t));
    SqueezeCons('_', t);
  }

  /** A leading character that does not start "__" is kept by both. */
  lemma SingleStep(s: string)
    requires |s| >= 2 && !(s[0] == '_' && s[1] == '_')
    requires Squeeze(ReplaceDoubles(s[1..])) == Squeeze(s[1..])
    ensures Squeeze(ReplaceDoubles(s)) == Squeeze(s)
  {
    var t := s[1..];
    var u := ReplaceDoubles(t);
    assert ReplaceDoubles(s) == [s[0]] + u;
    assert Squeeze(s) == [s[0]] + Squeeze(t);
    SqueezeCons(s[0], u);
    assert u[0] == t[0];
  }

  lemma {:induction false} SqueezeOfNoDouble(s: string)
    requires NoDouble(s)
    ensures Squeeze(s) == s
    decreases |s|
  {
    if |s| >= 2 {
      assert NoDouble(s[1..]) by {
        assert forall i :: 0 <= i < |s| - 1 ==> s[1..][i] == s[i + 1];
      }
      SqueezeOfNoDouble(s[1..]);
      assert s == [s[0]] + s[1..];
    }
  }

  lemma {:induction false} SqueezeNoDouble(s: string)
    ensures NoDouble(Squeeze(s))
    decreases |s|
  {
    if |s| >= 2 {
      SqueezeNoDouble(s[1..]);
      if !(s[0] == '_' && s[1] == '_') {
        var r := [s[0]] + Squeeze(s[1..]);
        assert forall i :: 1 <= i < |r| ==> r[i] == Squeeze(s[1..])[i - 1];
      }
    }
  }

  /** strings.TrimLeft(s, "_"). */
  function TrimLeftUnderscores(s: string): (r: string)
    ensures |r| <= |s| && r == s[|s| - |r|..]
    ensures |r| > 0 ==> r[0] != '_'
    ensures forall i :: 0 <= i < |s| - |r| ==> s[i] == '_'
    decreases |s|
  {
    if |s| > 0 && s[0] == '_' then TrimLeftUnderscores(s[1..]) else s
  }

  /** strings.TrimRight(s, "_"). */
  function TrimRightUnderscores(s: string): (r: string)
    ensures |r| <= |s| && r == s[..|r|]
    ensures |r| > 0 ==> r[|r| - 1] != '_'
    ensures forall i :: |r| <= i < |s| ==> s[i] == '_'
    decreases |s|
  {
    if |s| > 0 && s[|s| - 1] == '_' then TrimRightUnderscores(s[..|s| - 1]) else s
  }

  /** strings.Trim(s, "_"). */
  function TrimUnderscores(s: string): (r: string)
    ensures |r| > 0 ==> r[0] != '_' && r[|r| - 1] != '_'
  {
    TrimRightUnderscores(TrimLeftUnderscores(s))
  }

  /** What sanitizeSection returns: letters and digits kept, every other
      run of runes turned into one '_', with no '_' at either end. */
  function Sanitized(section: string): string {
    TrimUnderscores(Squeeze(MapAlnum(section)))
  }

  /** sanitizeSection, with its loop of ReplaceAll passes. */
  method SanitizeSection(section: string) returns (result: string)
    ensures result == Sanitized(section)
  {
    result := MapAlnum(section);
    ghost var mapped := result;
    while Contains(result, "__")
      invariant Squeeze(result) == Squeeze(mapped)
      decreases |result|
    {
      ContainsDouble(result);
      ReplaceDoublesShrinks(result);
      ReplaceDoublesSqueeze(result);
      result := ReplaceDoubles(result);
    }
    ContainsDouble(result);
    SqueezeOfNoDouble(result);
    result := TrimUnderscores(result);
  }

  lemma TrimmedIsSlice(s: string)
    ensures exists a, b :: 0 <= a <= b <= |s| && TrimUnderscores(s) == s[a..b]
  {
    var l := TrimLeftUnderscores(s);
    var r := TrimRightUnderscores(l);
    var a := |s| - |l|;
    assert r == s[a..a + |r|];
  }

  lemma NoDoubleSlice(s: string, a: int, b: int)
    requires 0 <= a <= b <= |s| && NoDouble(s)
    ensures NoDouble(s[a..b])
  {
    assert forall i :: 0 <= i < b - a ==> s[a..b][i] == s[a + i];
  }

  /** The output holds only ASCII letters, digits and '_'. */
  lemma SanitizedAlphabet(section: string)
    ensures forall i :: 0 <= i < |Sanitized(section)| ==> IsAlnum(Sanitized(section)[i]) || Sanitized(section)[i] == '_'
  {
    var m := MapAlnum(section);
    var q := Squeeze(m);
    assert forall c :: c in m ==> IsAlnum(c) || c == '_';
    SqueezeChars(m);
    assert forall i :: 0 <= i < |q| ==> IsAlnum(q[i]) || q[i] == '_';
    TrimmedIsSlice(q);
  }

  /** The output never holds "__". */
  lemma SanitizedNoDouble(section: string)
    ensures !Contains(Sanitized(section), "__")
  {
    var q := Squeeze(MapAlnum(section));
    SqueezeNoDouble(MapAlnum(section));
    TrimmedIsSlice(q);
    var a, b :| 0 <= a <= b <= |q| && TrimUnderscores(q) == q[a..b];
    NoDoubleSlice(q, a, b);
    ContainsDouble(Sanitized(section));
  }

  /** The output neither starts nor ends with '_'. */
  lemma SanitizedEdges(section: string)
    ensures var r := Sanitized(section); |r| > 0 ==> r[0] != '_' && r[|r| - 1] != '_'
  {
  }

  /** The letters and digits of `s`, in order. */
  function AlnumOnly(s: string): string
    decreases |s|
  {
    if |s| == 0 then "" else (if IsAlnum(s[0]) then [s[0]] else "") + AlnumOnly(s[1..])
  }

  lemma {:induction false} AlnumOnlyAppend(s: string, t: string)
    ensures AlnumOnly(s + t) == AlnumOnly(s) + AlnumOnly(t)
    decreases |s|
  {
    if |s| > 0 {
      AlnumOnlyAppend(s[1..], t);
      assert (s + t)[1..] == s[1..] + t;
    } else {
      assert s + t == t;
    }
  }

  lemma {:induction false} AlnumOnlyMap(s: string)
    ensures AlnumOnly(MapAlnum(s)) == AlnumOnly(s)
    decreases |s|
  {
    if |s| > 0 {
      AlnumOnlyMap(s[1..]);
      assert MapAlnum(s)[1..] == MapAlnum(s[1..]);
    }
  }

  lemma {:induction false} AlnumOnlySqueeze(s: string)
    ensures AlnumOnly(Squeeze(s)) == AlnumOnly(s)
    decreases |s|
  {
    if |s| >= 2 {
      AlnumOnlySqueeze(s[1..]);
      if !(s[0] == '_' && s[1] == '_') {
        assert ([s[0]] + Squeeze(s[1..]))[1..] == Squeeze(s[1..]);
      }
    }
  }

  lemma AlnumOnlyUnderscores(s: string)
    requires forall i :: 0 <= i < |s| ==> s[i] == '_'
    ensures AlnumOnly(s) == ""
  {
    if |s| > 0 {
      AlnumOnlyUnderscores(s[1..]);
    }
  }

  lemma AlnumOnlyTrimLeft(s: string)
    ensures AlnumOnly(TrimLeftUnderscores(s)) == AlnumOnly(s)
  {
    var l := TrimLeftUnderscores(s);
    var u := s[..|s| - |l|];
    assert s == u + l;
    AlnumOnlyAppend(u, l);
    AlnumOnlyUnderscores(u);
  }

  lemma AlnumOnlyTrimRight(s: string)
    ensures AlnumOnly(TrimRightUnderscores(s)) == AlnumOnly(s)
  {
    var r := TrimRightUnderscores(s);
    var u := s[|r|..];
    assert s == r + u;
    AlnumOnlyAppend(r, u);
    AlnumOnlyUnderscores(u);
  }

  lemma AlnumOnlyTrim(s: string)
    ensures AlnumOnly(TrimUnderscores(s)) == AlnumOnly(s)
  {
    AlnumOnlyTrimLeft(s);
    AlnumOnlyTrimRight(TrimLeftUnderscores(s));
  }

  /** The letters and digits of the section survive, in order. */
  lemma SanitizedKeepsAlnum(section: string)
    ensures AlnumOnly(Sanitized(section)) == AlnumOnly(section)
  {
    AlnumOnlyTrim(Squeeze(MapAlnum(section)));
    AlnumOnlySqueeze(MapAlnum(section));
    AlnumOnlyMap(section);
  }

  lemma {:induction false} AlnumOnlyEmpty(s: string)
    requires forall i :: 0 <= i < |s| ==> IsAlnum(s[i]) || s[i] == '_'
    requires |s| > 0 && s[0] != '_'
    ensures AlnumOnly(s) != ""
  {
  }

  /** The result is empty exactly when the section has no letter or digit. */
  lemma SanitizedEmpty(section: string)
    ensures Sanitized(section) == "" <==> AlnumOnly(section) == ""
  {
    SanitizedKeepsAlnum(section);
    SanitizedAlphabet(section);
    var r := Sanitized(section);
    if r != "" {
      AlnumOnlyEmpty(r);
    }
  }

  lemma MapAlnumOfClean(s: string)
    requires forall i :: 0 <= i < |s| ==> IsAlnum(s[i]) || s[i] == '_'
    ensures MapAlnum(s) == s
  {
  }

  /** Sanitising twice changes nothing. */
  lemma SanitizedIdempotent(section: string)
    ensures Sanitized(Sanitized(section)) == Sanitized(section)
  {
    var r := Sanitized(section);
    SanitizedAlphabet(section);
    MapAlnumOfClean(r);
    SanitizedNoDouble(section);
    ContainsDouble(r);
    SqueezeOfNoDouble(r);
    assert TrimLeftUnderscores(r) == r;
    assert TrimRightUnderscores(r) == r;
  }

  // ---------------------------------------------------------------------
  // Heading lines, `^#+\s+(.+)$`

  /** `\s` in Go's regexp syntax. */
  predicate IsSpace(c: char) {
    c == ' ' || c == '\t' || c == '\n' || c == 12 as char || c == '\r'
  }

  function LeadingHashes(s: string): (k: nat)
    ensures k <= |s| && forall i :: 0 <= i < k ==> s[i] == '#'
    ensures k < |s| ==> s[k] != '#'
    decreases |s|
  {
    if |s| > 0 && s[0] == '#' then 1 + LeadingHashes(s[1..]) else 0
  }

  function LeadingSpaces(s: string): (k: nat)
    ensures k <= |s| && forall i :: 0 <= i < k ==> IsSpace(s[i])
    ensures k < |s| ==> !IsSpace(s[k])
    decreases |s|
  {
    if |s| > 0 && IsSpace(s[0]) then 1 + LeadingSpaces(s[1..]) else 0
  }

  /** The captured text of the heading regexp, if the line matches: the
      greedy `#+` and `\s+` leave the rest of the line to `(.+)`, which
      cannot cross a newline; when nothing is left, the regexp backtracks
      and captures the last whitespace character (given at least two). */
  function HeadingText(line: string): (r: Option<string>)
    ensures r.Some? ==> |line| > 0 && line[0] == '#' && |r.value| > 0 && '\n' !in r.value
    ensures r.Some? ==> exists k, m :: HeadingSplit(line, k, m) && line[k + m..] == r.value
  {
    var k := LeadingHashes(line);
    if k == 0 then None
    else
      var rest := line[k..];
      var m := LeadingSpaces(rest);
      if m == 0 then None
      else
        var tail := rest[m..];
        if |tail| > 0 then
          if '\n' in tail then None
          else
            assert HeadingSplit(line, k, m) && line[k + m..] == tail;
            Some(tail)
        else if m >= 2 && rest[m - 1] != '\n' then
          assert HeadingSplit(line, k, m - 1) && line[k + m - 1..] == [rest[m - 1]];
          Some([rest[m - 1]])
        else None
  }

  /** `line` is k > 0 hashes, then m > 0 whitespace characters, then the
      rest. */
  predicate HeadingSplit(line: string, k: nat, m: nat) {
    && k > 0 && m > 0 && k + m <= |line|
    && line[..k] == Repeat('#', k)
    && (forall i :: k <= i < k + m ==> IsSpace(line[i]))
  }

  function Repeat(c: char, n: nat): (s: string)
    ensures |s| == n && forall i :: 0 <= i < n ==> s[i] == c
  {
    seq(n, i => c)
  }

  /** A line of hashes, whitespace and a title captures exactly the title. */
  lemma HeadingOfTitle(level: nat, gap: string, title: string)
    requires level > 0 && |gap| > 0 && forall i :: 0 <= i < |gap| ==> IsSpace(gap[i])
    requires |title| > 0 && !IsSpace(title[0]) && '\n' !in title
    ensures HeadingText(Repeat('#', level) + gap + title) == Some(title)
  {
    var line := Repeat('#', level) + gap + title;
    LeadingHashesOf(line, level);
    var rest := line[level..];
    assert rest == gap + title;
    LeadingSpacesOf(rest, |gap|);
    assert rest[|gap|..] == title;
  }

  lemma LeadingHashesOf(s: string, k: nat)
    requires k <= |s| && (forall i :: 0 <= i < k ==> s[i] == '#') && (k < |s| ==> s[k] != '#')
    ensures LeadingHashes(s) == k
    decreases k
  {
    if k > 0 {
      LeadingHashesOf(s[1..], k - 1);
    }
  }

  lemma LeadingSpacesOf(s: string, k: nat)
    requires k <= |s| && (forall i :: 0 <= i < k ==> IsSpace(s[i])) && (k < |s| ==> !IsSpace(s[k]))
    ensures LeadingSpaces(s) == k
    decreases k
  {
    if k > 0 {
      LeadingSpacesOf(s[1..], k - 1);
    }
  }

  /** A fence line is never a heading. */
  lemma FenceIsNoHeading(line: string)
    requires HasPrefix(line, "```")
    ensures HeadingText(line).None?
  {
    assert line[0] == '`';
  }

  // ---------------------------------------------------------------------
  // The fenced-block scanner of ExtractGoCodeBlocks

  datatype CodeBlock = CodeBlock(code: string, line: nat, section: string)

  /** The scanner's variables; `current` is the strings.Builder's text. */
  datatype ScanState = ScanState(
    inCodeBlock: bool,
    blockStartLine: nat,
    currentSection: string,
    current: string,
    blocks: seq<CodeBlock>)

  const Start: ScanState := ScanState(false, 0, "", "", [])

  /** The builder step: a newline first unless the builder is empty. */
  function Write(current: string, line: string): string {
    if |current| > 0 then current + "\n" + line else current + line
  }

  /** One iteration of the scanner loop on line number `lineNum`. */
  function Step(st: ScanState, line: string, lineNum: nat): ScanState {
    match HeadingText(line)
    case Some(h) => st.(currentSection := h)
    case None =>
      if HasPrefix(line, "```go") then st.(inCodeBlock := true, blockStartLine := lineNum, current := "")
      else if st.inCodeBlock && HasPrefix(line, "```") then
        st.(inCodeBlock := false, blocks := st.blocks + [CodeBlock(st.current, st.blockStartLine, Sanitized(st.currentSection))])
      else if st.inCodeBlock then st.(current := Write(st.current, line))
      else st
  }

  /** The scanner over `lines`, the first of which has number `lineNum`. */
  function ScanFrom(st: ScanState, lines: seq<string>, lineNum: nat): ScanState
    decreases |lines|
  {
    if |lines| == 0 then st else ScanFrom(Step(st, lines[0], lineNum), lines[1..], lineNum + 1)
  }

  lemma {:induction false} ScanAppend(st: ScanState, a: seq<string>, b: seq<string>, lineNum: nat)
    ensures ScanFrom(st, a + b, lineNum) == ScanFrom(ScanFrom(st, a, lineNum), b, lineNum + |a|)
    decreases |a|
  {
    if |a| == 0 {
      assert a + b == b;
    } else {
      var next := Step(st, a[0], lineNum);
      assert (a + b)[0] == a[0] && (a + b)[1..] == a[1..] + b;
      assert ScanFrom(st, a + b, lineNum) == ScanFrom(next, a[1..] + b, lineNum + 1);
      assert ScanFrom(st, a, lineNum) == ScanFrom(next, a[1..], lineNum + 1);
      ScanAppend(next, a[1..], b, lineNum + 1);
    }
  }

  /** The lines that are not headings. */
  function NonHeadings(lines: seq<string>): seq<string>
    decreases |lines|
  {
    if |lines| == 0 then []
    else (if HeadingText(lines[0]).Some? then [] else [lines[0]]) + NonHeadings(lines[1..])
  }

  /** The section in force after `lines`: the last heading's text, else `section`. */
  function SectionAfter(section: string, lines: seq<string>): string
    decreases |lines|
  {
    if |lines| == 0 then section
    else SectionAfter(match HeadingText(lines[0]) case Some(h) => h case None => section, lines[1..])
  }

  function Accumulate(current: string, lines: seq<string>): string
    decreases |lines|
  {
    if |lines| == 0 then current else Accumulate(Write(current, lines[0]), lines[1..])
  }

  function DropLeadingEmpty(lines: seq<string>): seq<string>
    decreases |lines|
  {
    if |lines| > 0 && lines[0] == "" then DropLeadingEmpty(lines[1..]) else lines
  }

  lemma {:induction false} AccumulateOnto(current: string, lines: seq<string>)
    requires current != ""
    ensures Accumulate(current, lines) == if |lines| == 0 then current else current + "\n" + Join(lines, "\n")
    decreases |lines|
  {
    if |lines| > 0 {
      var next := current + "\n" + lines[0];
      AccumulateOnto(next, lines[1..]);
      if |lines| > 1 {
        assert next + "\n" + Join(lines[1..], "\n") == current + "\n" + (lines[0] + "\n" + Join(lines[1..], "\n"));
      }
    }
  }

  /** The builder's text for the inner lines of a block: the lines joined
      by "\n", except that empty lines before the first non-empty one leave
      no trace (the builder only adds "\n" once it holds something). */
  lemma {:induction false} AccumulateFromEmpty(lines: seq<string>)
    ensures Accumulate("", lines) == Join(DropLeadingEmpty(lines), "\n")
    decreases |lines|
  {
    if |lines| > 0 {
      if lines[0] == "" {
        AccumulateFromEmpty(lines[1..]);
      } else {
        assert Write("", lines[0]) == lines[0];
        AccumulateOnto(lines[0], lines[1..]);
      }
    }
  }

  lemma FencePrefix(l: string)
    requires HasPrefix(l, "```go")
    ensures HasPrefix(l, "```")
  {
    assert l[..3] == l[..5][..3];
  }

  /** Inside a block, a line that is no fence either renames the section
      (a heading) or goes to the builder. */
  lemma StepInside(st: ScanState, l: string, lineNum: nat)
    requires st.inCodeBlock && !HasPrefix(l, "```")
    ensures HeadingText(l).Some? ==> Step(st, l, lineNum) == st.(currentSection := HeadingText(l).value)
    ensures HeadingText(l).None? ==> Step(st, l, lineNum) == st.(current := Write(st.current, l))
  {
    if HasPrefix(l, "```go") {
      FencePrefix(l);
    }
  }

  lemma ScanOne(st: ScanState, l: string, lineNum: nat)
    ensures ScanFrom(st, [l], lineNum) == Step(st, l, lineNum)
  {
    assert [l][1..] == [];
  }

  lemma {:induction false} InsideBlock(st: ScanState, body: seq<string>, lineNum: nat)
    requires st.inCodeBlock
    requires forall i :: 0 <= i < |body| ==> !HasPrefix(body[i], "```")
    ensures ScanFrom(st, body, lineNum) ==
            st.(current := Accumulate(st.current, NonHeadings(body)), currentSection := SectionAfter(st.currentSection, body))
    decreases |body|
  {
    if |body| > 0 {
      var l := body[0];
      var rest := body[1..];
      StepInside(st, l, lineNum);
      var next := Step(st, l, lineNum);
      assert ScanFrom(st, body, lineNum) == ScanFrom(next, rest, lineNum + 1);
      assert forall i :: 0 <= i < |rest| ==> rest[i] == body[i + 1];
      InsideBlock(next, rest, lineNum + 1);
      match HeadingText(l) {
        case Some(h) =>
          assert NonHeadings(body) == NonHeadings(rest);
          assert SectionAfter(st.currentSection, body) == SectionAfter(h, rest);
        case None =>
          var tail := NonHeadings(rest);
          assert NonHeadings(body) == [l] + tail;
          assert ([l] + tail)[0] == l && ([l] + tail)[1..] == tail;
          assert Accumulate(st.current, [l] + tail) == Accumulate(Write(st.current, l), tail);
          assert SectionAfter(st.currentSection, body) == SectionAfter(st.currentSection, rest);
      }
    }
  }

  lemma StepOpen(st: ScanState, open: string, lineNum: nat)
    requires HasPrefix(open, "```go")
    ensures Step(st, open, lineNum) == st.(inCodeBlock := true, blockStartLine := lineNum, current := "")
  {
    FenceIsNoHeading(open);
  }

  lemma StepClose(st: ScanState, close: string, lineNum: nat)
    requires st.inCodeBlock && HasPrefix(close, "```") && !HasPrefix(close, "```go")
    ensures Step(st, close, lineNum) ==
            st.(inCodeBlock := false, blocks := st.blocks + [CodeBlock(st.current, st.blockStartLine, Sanitized(st.currentSection))])
  {
    FenceIsNoHeading(close);
  }

  /** The state right after a "```go" line that follows `pre`. */
  lemma ScanToOpen(pre: seq<string>, open: string)
    requires HasPrefix(open, "```go")
    ensures var before := ScanFrom(Start, pre, 1);
            ScanFrom(Start, pre + [open], 1) == before.(inCodeBlock := true, blockStartLine := |pre| + 1, current := "")
  {
    var before := ScanFrom(Start, pre, 1);
    ScanAppend(Start, pre, [open], 1);
    ScanOne(before, open, 1 + |pre|);
    StepOpen(before, open, 1 + |pre|);
  }

  /** The state after the opening line and the inner lines of a block. */
  lemma ScanThroughBody(pre: seq<string>, open: string, body: seq<string>)
    requires HasPrefix(open, "```go")
    requires forall i :: 0 <= i < |body| ==> !HasPrefix(body[i], "```")
    ensures var before := ScanFrom(Start, pre, 1);
            ScanFrom(Start, pre + [open] + body, 1) ==
              before.(inCodeBlock := true, blockStartLine := |pre| + 1,
                      current := Accumulate("", NonHeadings(body)),
                      currentSection := SectionAfter(before.currentSection, body))
  {
    var afterOpen := ScanFrom(Start, pre + [open], 1);
    ScanToOpen(pre, open);
    ScanAppend(Start, pre + [open], body, 1);
    InsideBlock(afterOpen, body, 1 + |pre + [open]|);
  }

  /** A block that opens with a "```go" line and closes with the next
      "```" line is recorded at the opening line's 1-based number, with the
      code of its non-heading inner lines and the sanitised section in force
      when it closes. */
  lemma BlockRecorded(pre: seq<string>, open: string, body: seq<string>, close: string)
    requires HasPrefix(open, "```go")
    requires forall i :: 0 <= i < |body| ==> !HasPrefix(body[i], "```")
    requires HasPrefix(close, "```") && !HasPrefix(close, "```go")
    ensures var before := ScanFrom(Start, pre, 1);
            var after := ScanFrom(Start, pre + [open] + body + [close], 1);
            && !after.inCodeBlock
            && after.blocks == before.blocks +
                 [CodeBlock(Join(DropLeadingEmpty(NonHeadings(body)), "\n"), |pre| + 1,
                            Sanitized(SectionAfter(before.currentSection, body)))]
  {
    var lines := pre + [open] + body;
    var inside := ScanFrom(Start, lines, 1);
    ScanThroughBody(pre, open, body);
    ScanAppend(Start, lines, [close], 1);
    ScanOne(inside, close, 1 + |lines|);
    StepClose(inside, close, 1 + |lines|);
    AccumulateFromEmpty(NonHeadings(body));
  }

  /** A block still open when the lines run out is not returned. */
  lemma OpenBlockDropped(pre: seq<string>, open: string, body: seq<string>)
    requires HasPrefix(open, "```go")
    requires forall i :: 0 <= i < |body| ==> !HasPrefix(body[i], "```")
    ensures ScanFrom(Start, pre + [open] + body, 1).blocks == ScanFrom(Start, pre, 1).blocks
  {
    ScanThroughBody(pre, open, body);
  }

  /** The line loop of ExtractGoCodeBlocks over the lines the scanner
      yields. */
  method ExtractGoCodeBlocks(lines: seq<string>) returns (blocks: seq<CodeBlock>)
    ensures blocks == ScanFrom(Start, lines, 1).blocks
  {
    blocks := [];
    var current := "";
    var inCodeBlock := false;
    var blockStartLine: nat := 0;
    var currentSection := "";
    var lineNum: nat := 0;
    for idx := 0 to |lines|
      invariant lineNum == idx
      invariant ScanFrom(Start, lines, 1) ==
                ScanFrom(ScanState(inCodeBlock, blockStartLine, currentSection, current, blocks), lines[idx..], idx + 1)
    {
      ghost var st := ScanState(inCodeBlock, blockStartLine, currentSection, current, blocks);
      assert lines[idx..][0] == lines[idx] && lines[idx..][1..] == lines[idx + 1..];
      lineNum := lineNum + 1;
      var line := lines[idx];
      var matches := HeadingText(line);
      if matches.Some? {
        currentSection := matches.value;
      } else if HasPrefix(line, "```go") {
        inCodeBlock := true;
        blockStartLine := lineNum;
        current := "";
      } else if inCodeBlock && HasPrefix(line, "```") {
        inCodeBlock := false;
        var section := SanitizeSection(currentSection);
        blocks := blocks + [CodeBlock(current, blockStartLine, section)];
      } else if inCodeBlock {
        if |current| > 0 {
          current := current + "\n";
        }
        current := current + line;
      }
      assert ScanState(inCodeBlock, blockStartLine, currentSection, current, blocks) == Step(st, line, idx + 1);
    }
  }

  // ---------------------------------------------------------------------
  // injectOption

  predicate IsQuote(c: char) {
    c == '"' || c == '`' || c == '\''
  }

  /** The variables of the parenthesis matcher. */
  datatype Matcher = Matcher(parenCount: int, inString: bool, stringChar: char)

  const Fresh: Matcher := Matcher(0, false, 0 as char)

  /** The matcher after the byte at `i`: a quote opens a string outside one,
      the same quote not preceded by '\' closes it, and parentheses count
      only outside strings. */
  function Advance(m: Matcher, code: string, i: nat): Matcher
    requires i < |code|
  {
    var ch := code[i];
    var m :=
      if !m.inString && IsQuote(ch) then m.(inString := true, stringChar := ch)
      else if m.inString && ch == m.stringChar && (i == 0 || code[i - 1] != '\\') then m.(inString := false)
      else m;
    if !m.inString && ch == '(' then m.(parenCount := m.parenCount + 1)
    else if !m.inString && ch == ')' then m.(parenCount := m.parenCount - 1)
    else m
  }

  /** The matcher after the bytes from `start` up to `j`. */
  function MatcherAt(code: string, start: nat, j: nat): Matcher
    requires start <= j <= |code|
    decreases j - start
  {
    if j == start then Fresh else Advance(MatcherAt(code, start, j - 1), code, j - 1)
  }

  /** The byte at `j` is a ')' outside any string that brings the depth back to 0. */
  predicate ClosesAt(code: string, start: nat, j: nat)
    requires start <= j < |code|
  {
    var m := MatcherAt(code, start, j + 1);
    code[j] == ')' && !m.inString && m.parenCount == 0
  }

  /** The number of '(' minus the number of ')'. */
  function Balance(s: string): int
    decreases |s|
  {
    if |s| == 0 then 0
    else Balance(s[..|s| - 1]) + (if s[|s| - 1] == '(' then 1 else if s[|s| - 1] == ')' then -1 else 0)
  }

  /** Where no quote occurs the matcher's depth is the plain balance of
      parentheses. */
  lemma {:induction false} DepthWithoutQuotes(code: string, start: nat, j: nat)
    requires start <= j <= |code|
    requires forall k :: start <= k < j ==> !IsQuote(code[k])
    ensures MatcherAt(code, start, j) == Matcher(Balance(code[start..j]), false, 0 as char)
    decreases j - start
  {
    if j > start {
      DepthWithoutQuotes(code, start, j - 1);
      assert code[start..j][..j - start - 1] == code[start..j - 1];
    }
  }

  /** The cutset of strings.TrimRight(s, " \t\n"). */
  predicate IsBlank(c: char) {
    c == ' ' || c == '\t' || c == '\n'
  }

  /** strings.TrimRight(s, " \t\n"): the longest prefix that does not end
      in a blank; everything removed is blank. */
  function TrimRightBlank(s: string): (r: string)
    ensures |r| <= |s| && r == s[..|r|]
    ensures |r| > 0 ==> !IsBlank(r[|r| - 1])
    ensures forall i :: |r| <= i < |s| ==> IsBlank(s[i])
    decreases |s|
  {
    if |s| > 0 && IsBlank(s[|s| - 1]) then TrimRightBlank(s[..|s| - 1]) else s
  }

  /** The last character of `s` that is not blank is a comma. */
  predicate CommaBeforeBlanks(s: string) {
    exists i :: 0 <= i < |s| && s[i] == ',' && forall j :: i < j < |s| ==> IsBlank(s[j])
  }

  /** The trailing-comma test of injectOption decides CommaBeforeBlanks. */
  lemma TrailingCommaTest(s: string)
    ensures HasSuffix(TrimRightBlank(s), ",") <==> CommaBeforeBlanks(s)
  {
    var r := TrimRightBlank(s);
    if HasSuffix(r, ",") {
      assert r[|r| - 1..] == ",";
      assert s[|r| - 1] == r[|r| - 1] == ',';
    }
    if CommaBeforeBlanks(s) {
      var i :| 0 <= i < |s| && s[i] == ',' && forall j :: i < j < |s| ==> IsBlank(s[j]);
      assert i < |r|;
      assert s[|r| - 1] == r[|r| - 1];
      assert r[|r| - 1..] == [r[|r| - 1]];
    }
  }

  /** What is put before the closing parenthesis: the option and a comma,
      preceded by a comma unless the arguments already end in one (blanks
      aside). */
  function Insertion(prefix: string, option: string): (ins: string)
    ensures HasSuffix(ins, option + ",\n\t")
    ensures CommaBeforeBlanks(prefix) ==> ins == "\t\t" + option + ",\n\t"
    ensures !CommaBeforeBlanks(prefix) ==> ins == ",\n\t\t" + option + ",\n\t"
  {
    TrailingCommaTest(prefix);
    var ins := if HasSuffix(TrimRightBlank(prefix), ",") then "\t\t" + option + ",\n\t" else ",\n\t\t" + option + ",\n\t";
    assert ins[|ins| - |option + ",\n\t"|..] == option + ",\n\t";
    ins
  }

  /** `c` is the first position from `start` on where the call closes. */
  predicate FirstClose(code: string, start: nat, c: nat)
    requires start <= c < |code|
  {
    ClosesAt(code, start, c) && forall j :: start <= j < c ==> !ClosesAt(code, start, j)
  }

  /** The parenthesis loop of injectOption, from the constructor's index:
      the first position where the call closes, or -1. */
  method FindClose(code: string, startIdx: nat) returns (closeIdx: int)
    requires startIdx <= |code|
    ensures closeIdx == -1 ==> forall j :: startIdx <= j < |code| ==> !ClosesAt(code, startIdx, j)
    ensures closeIdx != -1 ==> startIdx <= closeIdx < |code| && FirstClose(code, startIdx, closeIdx)
  {
    var parenCount := 0;
    var inString := false;
    var stringChar := 0 as char;
    closeIdx := -1;
    var i := startIdx;
    while i < |code|
      invariant startIdx <= i <= |code|
      invariant Matcher(parenCount, inString, stringChar) == MatcherAt(code, startIdx, i)
      invariant forall j :: startIdx <= j < i ==> !ClosesAt(code, startIdx, j)
      invariant closeIdx == -1
      decreases |code| - i
    {
      var ch := code[i];
      if !inString && IsQuote(ch) {
        inString := true;
        stringChar := ch;
      } else if inString && ch == stringChar && (i == 0 || code[i - 1] != '\\') {
        inString := false;
      }
      if !inString {
        if ch == '(' {
          parenCount := parenCount + 1;
        } else if ch == ')' {
          parenCount := parenCount - 1;
          if parenCount == 0 {
            closeIdx := i;
            assert ClosesAt(code, startIdx, i);
            return;
          }
        }
      }
      assert Matcher(parenCount, inString, stringChar) == MatcherAt(code, startIdx, i + 1);
      i := i + 1;
    }
  }

  /** injectOption: the option goes in before the first ')' after the
      constructor's name that closes its call; the code is unchanged when the
      name is absent or its call never closes. */
  method InjectOption(code: string, ctor: string, option: string) returns (r: string)
    ensures Index(code, ctor).None? ==> r == code
    ensures Index(code, ctor).Some? ==>
              var s := Index(code, ctor).value;
              && ((forall j :: s <= j < |code| ==> !ClosesAt(code, s, j)) ==> r == code)
              && (forall c :: s <= c < |code| && FirstClose(code, s, c) ==>
                    r == code[..c] + Insertion(code[..c], option) + code[c..])
  {
    var found := Index(code, ctor);
    if found.None? {
      return code;
    }
    var startIdx := found.value;
    var closeIdx := FindClose(code, startIdx);
    if closeIdx == -1 {
      return code;
    }
    var prefix := code[..closeIdx];
    var trimmed := TrimRightBlank(prefix);
    TrailingCommaTest(prefix);
    if HasSuffix(trimmed, ",") {
      r := prefix + "\t\t" + option + ",\n\t" + code[closeIdx..];
      Regroup(prefix, "\t\t", option, code[closeIdx..]);
    } else {
      r := prefix + ",\n\t\t" + option + ",\n\t" + code[closeIdx..];
      Regroup(prefix, ",\n\t\t", option, code[closeIdx..]);
    }
    forall c | startIdx <= c < |code| && FirstClose(code, startIdx, c)
      ensures c == closeIdx
    {
      FirstCloseUnique(code, startIdx, c, closeIdx);
    }
  }

  lemma FirstCloseUnique(code: string, start: nat, c: nat, d: nat)
    requires start <= c < |code| && start <= d < |code|
    requires FirstClose(code, start, c) && FirstClose(code, start, d)
    ensures c == d
  {
  }

  lemma Regroup(prefix: string, lead: string, option: string, rest: string)
    ensures prefix + lead + option + ",\n\t" + rest == prefix + (lead + option + ",\n\t") + rest
  {
  }
}
