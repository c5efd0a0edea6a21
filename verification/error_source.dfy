/** `getErrorSource` of index.js: finding the file name and line number of
    an error in the first frame of its stack trace. */
module ErrorSource {
  import opened Wrappers
  import opened JsText

  /** The first index at or after `from` that holds a newline, or the first
      index past the text (`from` itself when it already is). */
  function ScanNewline(s: string, from: nat): (k: nat)
    ensures from <= k
    ensures k < |s| ==> s[k] == '\n'
    ensures forall j :: from <= j < k ==> j < |s| && s[j] != '\n'
    ensures k <= |s| || k == from
    decreases |s| - from
  {
    if from >= |s| || s[from] == '\n' then from else ScanNewline(s, from + 1)
  }

  /** The text the regular expression is matched against: from the first
      newline (included) up to the next one (excluded). */
  function StackSegment(stack: string): string {
    var first := ScanNewline(stack, 0);
    var second := ScanNewline(stack, first + 1);
    Substr(stack, first, second - first)
  }

  /** The two `for` loops of `getErrorSource` and the `substr` between them. */
  method ErrorSourceSegment(stack: string) returns (segment: string)
    ensures segment == StackSegment(stack)
  {
    var firstNewLineIndex := 0;
    while firstNewLineIndex < |stack| && stack[firstNewLineIndex] != '\n'
      invariant firstNewLineIndex <= |stack|
      invariant ScanNewline(stack, firstNewLineIndex) == ScanNewline(stack, 0)
    {
      firstNewLineIndex := firstNewLineIndex + 1;
    }
    var secondNewLineIndex := firstNewLineIndex + 1;
    while secondNewLineIndex < |stack| && stack[secondNewLineIndex] != '\n'
      invariant firstNewLineIndex < secondNewLineIndex
      invariant secondNewLineIndex <= |stack| || secondNewLineIndex == firstNewLineIndex + 1
      invariant ScanNewline(stack, secondNewLineIndex) == ScanNewline(stack, firstNewLineIndex + 1)
      decreases |stack| - secondNewLineIndex
    {
      secondNewLineIndex := secondNewLineIndex + 1;
    }
    segment := Substr(stack, firstNewLineIndex, secondNewLineIndex - firstNewLineIndex);
  }

  /** Every character of `s` satisfies `p`. */
  predicate AllSatisfy(s: string, p: char -> bool) {
    forall i :: 0 <= i < |s| ==> p(s[i])
  }

  /** The longest run at the end of `s` whose characters all satisfy `p`
      (see `TrailingRunShape`). */
  function TrailingRun(s: string, p: char -> bool): (r: string)
    ensures |r| <= |s|
  {
    if s == [] || !p(s[|s| - 1]) then [] else TrailingRun(s[..|s| - 1], p) + [s[|s| - 1]]
  }

  /** The run is a suffix of `s`, all of it satisfies `p`, and the character
      before it does not. */
  lemma {:induction false} TrailingRunShape(s: string, p: char -> bool)
    ensures var r := TrailingRun(s, p);
            && r == s[|s| - |r|..]
            && AllSatisfy(r, p)
            && (|r| < |s| ==> !p(s[|s| - |r| - 1]))
  {
    if s != [] && p(s[|s| - 1]) {
      var init, last := s[..|s| - 1], s[|s| - 1];
      TrailingRunShape(init, p);
      var r0 := TrailingRun(init, p);
      var r := r0 + [last];
      assert TrailingRun(s, p) == r;
      assert r == s[|s| - |r|..] by {
        assert init[|init| - |r0|..] + [last] == s[|s| - |r|..];
      }
      assert AllSatisfy(r, p) by {
        forall i | 0 <= i < |r| ensures p(r[i]) {
          if i < |r0| {
            assert r[i] == r0[i];
          }
        }
      }
      if |r| < |s| {
        assert s[|s| - |r| - 1] == init[|init| - |r0| - 1];
      }
    }
  }

  /** `s` without `suffix`, when it ends with it. */
  function DropSuffix(s: string, suffix: string): (r: Option<string>)
    ensures r.Some? ==> s == r.value + suffix
  {
    if |suffix| <= |s| && s[|s| - |suffix|..] == suffix then Some(s[..|s| - |suffix|]) else None
  }

  lemma DropSuffixOf(a: string, suffix: string)
    ensures DropSuffix(a + suffix, suffix) == Some(a)
  {
    assert (a + suffix)[|a|..] == suffix;
    assert (a + suffix)[..|a|] == a;
  }

  /** `s` split before its `TrailingRun`. */
  function SplitRun(s: string, p: char -> bool): (parts: (string, string))
    ensures s == parts.0 + parts.1
    ensures parts.1 == TrailingRun(s, p)
    ensures AllSatisfy(parts.1, p)
    ensures parts.0 == [] || !p(parts.0[|parts.0| - 1])
  {
    var run := TrailingRun(s, p);
    TrailingRunShape(s, p);
    (s[..|s| - |run|], run)
  }

  lemma SplitRunOf(a: string, b: string, p: char -> bool)
    requires AllSatisfy(b, p)
    requires a == [] || !p(a[|a| - 1])
    ensures SplitRun(a + b, p) == (a, b)
  {
    TrailingRunOf(a, b, p);
    assert (a + b)[..|a|] == a;
  }

  /** The two capture groups of `/([\w]+\.js):([\d]+):[\d]+\)$/`. */
  datatype SourceMatch = SourceMatch(fileName: string, line: string)

  /** The regular expression, read from the end of the text that `$` anchors
      it to: `)`, the column digits, `:`, the line digits, `.js:`, and the
      word characters of the name. The leftmost match takes the whole run of
      word characters before `.js`. */
  function MatchSource(segment: string): Option<SourceMatch> {
    match DropSuffix(segment, ")")
    case None => None
    case Some(s1) =>
      var (s2, column) := SplitRun(s1, IsDigit);
      if column == [] then None
      else
        match DropSuffix(s2, ":")
        case None => None
        case Some(s3) =>
          var (s4, line) := SplitRun(s3, IsDigit);
          if line == [] then None
          else
            match DropSuffix(s4, ".js:")
            case None => None
            case Some(s5) =>
              var (prefix, name) := SplitRun(s5, IsWordChar);
              if name == [] then None else Some(SourceMatch(name + ".js", line))
  }

  /** The text a match is made of: an unmatched prefix that does not end in
      a word character, the name, `.js:`, the line, `:`, the column and `)`. */
  predicate FrameShape(segment: string, prefix: string, name: string, line: string, column: string) {
    && name != [] && AllWordChars(name)
    && line != [] && AllDigits(line)
    && column != [] && AllDigits(column)
    && (prefix == [] || !IsWordChar(prefix[|prefix| - 1]))
    && segment == prefix + name + ".js:" + line + ":" + column + ")"
  }

  lemma {:induction false} TrailingRunOf(a: string, b: string, p: char -> bool)
    requires AllSatisfy(b, p)
    requires a == [] || !p(a[|a| - 1])
    ensures TrailingRun(a + b, p) == b
  {
    if b != [] {
      var init, last := b[..|b| - 1], b[|b| - 1];
      assert TrailingRun(a + b, p) == TrailingRun(a + init, p) + [last] by {
        var s := a + b;
        assert s[|s| - 1] == last && p(last);
        assert s[..|s| - 1] == a + init;
      }
      assert AllSatisfy(init, p) by {
        forall i | 0 <= i < |init| ensures p(init[i]) {
          assert init[i] == b[i];
        }
      }
      TrailingRunOf(a, init, p);
      assert init + [last] == b;
    } else {
      assert a + b == a;
    }
  }

  /** Every text of the frame shape is matched, with the name and line it
      was built from. */
  lemma MatchSourceOfFrame(segment: string, prefix: string, name: string, line: string, column: string)
    requires FrameShape(segment, prefix, name, line, column)
    ensures MatchSource(segment) == Some(SourceMatch(name + ".js", line))
  {
    var s5 := prefix + name;
    var s4 := s5 + ".js:";
    var s3 := s4 + line;
    var s2 := s3 + ":";
    var s1 := s2 + column;
    DropSuffixOf(s1, ")");
    SplitRunOf(s2, column, IsDigit);
    DropSuffixOf(s3, ":");
    SplitRunOf(s4, line, IsDigit);
    DropSuffixOf(s5, ".js:");
    SplitRunOf(prefix, name, IsWordChar);
  }

  /** Whatever is matched has the frame shape, with the file name being the
      matched name followed by `.js`. */
  lemma MatchSourceSound(segment: string)
    requires MatchSource(segment).Some?
    ensures exists prefix, name, column ::
              FrameShape(segment, prefix, name, MatchSource(segment).value.line, column) &&
              MatchSource(segment).value.fileName == name + ".js"
  {
    var s1 := DropSuffix(segment, ")").value;
    var (s2, column) := SplitRun(s1, IsDigit);
    var s3 := DropSuffix(s2, ":").value;
    var (s4, line) := SplitRun(s3, IsDigit);
    var s5 := DropSuffix(s4, ".js:").value;
    var (prefix, name) := SplitRun(s5, IsWordChar);
    assert FrameShape(segment, prefix, name, line, column);
  }

  /** Where an error was thrown: the file name and `parseInt` of the line. */
  datatype SourceLocation = SourceLocation(fileName: string, lineNumber: ParsedInt)

  /** `errorSourceData[1]` of a failed match: the match is `null`. */
  const NoMatchError := PropertyReadError("null", "1")

  function ErrorSourceOf(stack: string): Result<SourceLocation> {
    match MatchSource(StackSegment(stack))
    case None => Failure(NoMatchError)
    case Some(m) => Success(SourceLocation(m.fileName, ParseInt(m.line)))
  }

  /** `getErrorSource(error)` for the error's `stack`. */
  method GetErrorSource(stack: string) returns (r: Result<SourceLocation>)
    ensures r == ErrorSourceOf(stack)
  {
    var segment := ErrorSourceSegment(stack);
    var errorSourceData := MatchSource(segment);
    if errorSourceData.None? {
      return Failure(NoMatchError);
    }
    r := Success(SourceLocation(errorSourceData.value.fileName, ParseInt(errorSourceData.value.line)));
  }

  /** The newline scan stops exactly at the first newline from `from` on. */
  lemma ScanNewlineStopsAt(s: string, from: nat, k: nat)
    requires from <= k <= |s|
    requires forall j :: from <= j < k ==> s[j] != '\n'
    requires k < |s| ==> s[k] == '\n'
    ensures ScanNewline(s, from) == k
  {
  }

  /** The segment of a stack whose first two lines are `head` and `frame`
      is the newline ending `head` followed by `frame`. */
  lemma StackSegmentOfSecondLine(head: string, frame: string, tail: string)
    requires '\n' !in head && '\n' !in frame
    requires tail == [] || tail[0] == '\n'
    ensures StackSegment(head + "\n" + frame + tail) == "\n" + frame
  {
    var segment := "\n" + frame;
    var stack := head + segment + tail;
    assert stack == head + "\n" + frame + tail;
    var first, second := |head|, |head| + |segment|;
    assert stack[..first] == head;
    assert stack[first..second] == segment;
    ScanNewlineStopsAt(stack, 0, first);
    ScanNewlineStopsAt(stack, first + 1, second);
  }

  /** A character that is not a word character can lead a frame. */
  lemma FrameShapeAfter(c: char, frame: string, prefix: string, name: string, line: string, column: string)
    requires !IsWordChar(c) && FrameShape(frame, prefix, name, line, column)
    ensures FrameShape([c] + frame, [c] + prefix, name, line, column)
  {
    var rest := ".js:" + line + ":" + column + ")";
    assert frame == prefix + name + rest;
    assert [c] + frame == [c] + prefix + name + rest;
  }

  /** A stack whose first line is the message and whose second line is a
      frame ending in `name.js:line:column)` reports that file and line. */
  lemma ErrorSourceOfFrame(head: string, frame: string, tail: string,
                           prefix: string, name: string, line: string, column: string)
    requires '\n' !in head && '\n' !in frame
    requires tail == [] || tail[0] == '\n'
    requires FrameShape(frame, prefix, name, line, column)
    ensures ErrorSourceOf(head + "\n" + frame + tail) ==
              Success(SourceLocation(name + ".js", Finite(DigitsValue(line))))
  {
    StackSegmentOfSecondLine(head, frame, tail);
    FrameShapeAfter('\n', frame, prefix, name, line, column);
    MatchSourceOfFrame("\n" + frame, "\n" + prefix, name, line, column);
    LeadingDigitsOfDigits(line, []);
    assert line + [] == line;
  }
}
