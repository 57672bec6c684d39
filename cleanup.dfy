/** The maintenance script cleanup-script.js: line filters over a file's lines (the file
    read, the write-back, the backups and the regular-expression rewrites are not part of
    this model), the two "unused" checks, and the runner that reports the steps that threw. */
module Cleanup {
  import opened Text

  /** `b` contains the elements of `a` in order, possibly with others between them. */
  predicate Subseq(a: seq<string>, b: seq<string>)
    decreases |b|
  {
    a == [] ||
    (b != [] &&
     ((a[|a| - 1] == b[|b| - 1] && Subseq(a[..|a| - 1], b[..|b| - 1])) ||
      Subseq(a, b[..|b| - 1])))
  }

  lemma {:induction false} SubseqRefl(a: seq<string>)
    ensures Subseq(a, a)
    decreases |a|
  {
    if a != [] {
      SubseqRefl(a[..|a| - 1]);
    }
  }

  // ---------------------------------------------------------------------------------
  // removeExcessiveDebug

  /** A debug line: trimmed, it starts with `logger.debug` or `console.log`. */
  predicate IsDebugLine(line: string)
  {
    IsPrefix("logger.debug", Trim(line)) || IsPrefix("console.log", Trim(line))
  }

  /** The lines without debug lines, in order. */
  function NonDebug(lines: seq<string>): seq<string>
  {
    if lines == [] then []
    else NonDebug(lines[..|lines| - 1]) + if IsDebugLine(lines[|lines| - 1]) then [] else [lines[|lines| - 1]]
  }

  /** Two debug lines whose trimmed texts are equal. */
  predicate SameDebug(x: string, y: string)
  {
    IsDebugLine(x) && IsDebugLine(y) && Trim(x) == Trim(y)
  }

  /** No two neighbouring lines are the same debug line. */
  predicate NoRepeatedDebug(lines: seq<string>)
  {
    forall i :: 0 < i < |lines| ==> !SameDebug(lines[i - 1], lines[i])
  }

  /** The `forEach` of `removeExcessiveDebug` over `lines`: the kept lines and the final
      `lastDebugLine`. A debug line is kept unless its trimmed text equals that of
      `lastDebugLine`, and then becomes it; any other line is kept and resets it to "".
      `lastDebugLine` is always the last kept line when that is a debug line, and "" when
      it is not, so no two neighbouring kept lines are the same debug line. */
  function Collapse(lines: seq<string>): (r: (seq<string>, string))
    ensures r.1 == if r.0 != [] && IsDebugLine(r.0[|r.0| - 1]) then r.0[|r.0| - 1] else ""
  {
    if lines == [] then ([], "")
    else
      var (kept, last) := Collapse(lines[..|lines| - 1]);
      var line := lines[|lines| - 1];
      if IsDebugLine(line) then
        if Trim(line) != Trim(last) then (kept + [line], line) else (kept, last)
      else (kept + [line], "")
  }

  /** No two neighbouring kept lines are the same debug line. */
  lemma {:induction false} CollapseNoRepeats(lines: seq<string>)
    ensures NoRepeatedDebug(Collapse(lines).0)
    decreases |lines|
  {
    if lines != [] {
      var p := lines[..|lines| - 1];
      CollapseNoRepeats(p);
      var (kept, last) := Collapse(p);
      var line := lines[|lines| - 1];
      if !IsDebugLine(line) || Trim(line) != Trim(last) {
        NoRepeatedSnoc(kept, line);
      }
    }
  }

  /** Appending a line that does not repeat the last debug line keeps `NoRepeatedDebug`. */
  lemma NoRepeatedSnoc(kept: seq<string>, line: string)
    requires NoRepeatedDebug(kept)
    requires kept != [] ==> !SameDebug(kept[|kept| - 1], line)
    ensures NoRepeatedDebug(kept + [line])
  {
    var r := kept + [line];
    forall i | 0 < i < |r| ensures !SameDebug(r[i - 1], r[i]) {
      if i < |kept| {
        assert r[i - 1] == kept[i - 1] && r[i] == kept[i];
      }
    }
  }

  /** The debug filter keeps a subsequence of its input. */
  lemma {:induction false} CollapseIsSubseq(lines: seq<string>)
    ensures Subseq(Collapse(lines).0, lines)
    decreases |lines|
  {
    if lines != [] {
      var p := lines[..|lines| - 1];
      CollapseIsSubseq(p);
      var kept := Collapse(p).0;
      var r := Collapse(lines).0;
      if r == kept + [lines[|lines| - 1]] {
        assert r[..|r| - 1] == kept;
      } else {
        assert r == kept;
      }
    }
  }

  /** Every line that is not a debug line survives the filter, in order. */
  lemma {:induction false} CollapseKeepsOtherLines(lines: seq<string>)
    ensures NonDebug(Collapse(lines).0) == NonDebug(lines)
    decreases |lines|
  {
    if lines != [] {
      var p := lines[..|lines| - 1];
      CollapseKeepsOtherLines(p);
      var kept := Collapse(p).0;
      var r := Collapse(lines).0;
      if r == kept + [lines[|lines| - 1]] {
        assert r[..|r| - 1] == kept;
      }
    }
  }

  /** A trimmed debug line is never empty, so the initial "" never matches one. */
  lemma DebugLineNotBlank(line: string)
    requires IsDebugLine(line)
    ensures Trim(line) != Trim("")
  {
    assert Trim("") == "";
  }

  /** Input without repeated debug lines passes through unchanged. */
  lemma {:induction false} CollapseFixesNoRepeats(lines: seq<string>)
    requires NoRepeatedDebug(lines)
    ensures Collapse(lines).0 == lines
    decreases |lines|
  {
    if lines != [] {
      NoRepeatedDebugPrefix(lines);
      CollapseFixesNoRepeats(lines[..|lines| - 1]);
      CollapseKeepsUnrepeated(lines);
    }
  }

  /** When the last line does not repeat the debug line before it, the filter keeps it
      after the lines it kept from the rest. */
  lemma CollapseKeepsUnrepeated(lines: seq<string>)
    requires lines != [] && NoRepeatedDebug(lines)
    requires Collapse(lines[..|lines| - 1]).0 == lines[..|lines| - 1]
    ensures Collapse(lines).0 == lines
  {
    LastSplit(lines);
    LastIsNew(lines);
  }

  /** Over input kept whole, `lastDebugLine` is the previous line when that is a debug
      line, so an unrepeated last line never equals it. */
  lemma LastIsNew(lines: seq<string>)
    requires lines != [] && NoRepeatedDebug(lines)
    requires Collapse(lines[..|lines| - 1]).0 == lines[..|lines| - 1]
    ensures var line := lines[|lines| - 1];
      !IsDebugLine(line) || Trim(line) != Trim(Collapse(lines[..|lines| - 1]).1)
  {
    var p := lines[..|lines| - 1];
    var line := lines[|lines| - 1];
    var last := Collapse(p).1;
    if IsDebugLine(line) {
      if p != [] && IsDebugLine(p[|p| - 1]) {
        assert last == lines[|lines| - 2];
        assert !SameDebug(lines[|lines| - 2], line);
      } else {
        assert last == "";
        DebugLineNotBlank(line);
      }
    }
  }

  /** A non-empty sequence is its front followed by its last element. */
  lemma LastSplit<T>(s: seq<T>)
    requires s != []
    ensures s == s[..|s| - 1] + [s[|s| - 1]]
  {
  }

  lemma NoRepeatedDebugPrefix(lines: seq<string>)
    requires lines != [] && NoRepeatedDebug(lines)
    ensures NoRepeatedDebug(lines[..|lines| - 1])
  {
    var p := lines[..|lines| - 1];
    forall i | 0 < i < |p| ensures !SameDebug(p[i - 1], p[i]) {
      assert p[i - 1] == lines[i - 1] && p[i] == lines[i];
    }
  }

  /** `removeExcessiveDebug` on lines. */
  function RemoveExcessiveDebug(lines: seq<string>): seq<string>
  {
    Collapse(lines).0
  }

  /** The debug filter is idempotent. */
  lemma DebugFilterIdempotent(lines: seq<string>)
    ensures RemoveExcessiveDebug(RemoveExcessiveDebug(lines)) == RemoveExcessiveDebug(lines)
  {
    CollapseNoRepeats(lines);
    CollapseFixesNoRepeats(Collapse(lines).0);
  }

  /** The loop of `removeExcessiveDebug`. */
  method CollapseDebugLines(lines: seq<string>) returns (filtered: seq<string>)
    ensures filtered == RemoveExcessiveDebug(lines)
    ensures Subseq(filtered, lines) && NonDebug(filtered) == NonDebug(lines)
    ensures NoRepeatedDebug(filtered)
  {
    filtered := [];
    var lastDebugLine := "";
    for i := 0 to |lines|
      invariant (filtered, lastDebugLine) == Collapse(lines[..i])
    {
      assert lines[..i + 1][..i] == lines[..i];
      var line := lines[i];
      if IsDebugLine(line) {
        if Trim(line) != Trim(lastDebugLine) {
          filtered := filtered + [line];
          lastDebugLine := line;
        }
      } else {
        filtered := filtered + [line];
        lastDebugLine := "";
      }
    }
    assert lines[..|lines|] == lines;
    CollapseIsSubseq(lines);
    CollapseKeepsOtherLines(lines);
    CollapseNoRepeats(lines);
  }

  // ---------------------------------------------------------------------------------
  // cleanCSS

  /** A CSS property line, on its trimmed text: it contains ":" (for one character,
      `includes` is membership) and ends with ";". */
  predicate IsProperty(t: string)
  {
    ':' in t && IsSuffix(";", t)
  }

  /** The trimmed texts of the property lines. */
  function PropertyTexts(lines: seq<string>): set<string>
  {
    if lines == [] then {}
    else
      var t := Trim(lines[|lines| - 1]);
      PropertyTexts(lines[..|lines| - 1]) + if IsProperty(t) then {t} else {}
  }

  /** No property line repeats the trimmed text of an earlier one. */
  predicate DistinctProperties(lines: seq<string>)
  {
    lines == [] ||
    (var t := Trim(lines[|lines| - 1]);
     DistinctProperties(lines[..|lines| - 1]) &&
     (IsProperty(t) ==> t !in PropertyTexts(lines[..|lines| - 1])))
  }

  /** The lines that are not property lines, in order. */
  function NonProperty(lines: seq<string>): seq<string>
  {
    if lines == [] then []
    else
      NonProperty(lines[..|lines| - 1]) +
      if IsProperty(Trim(lines[|lines| - 1])) then [] else [lines[|lines| - 1]]
  }

  /** The `forEach` of `cleanCSS`: the kept lines and the `seen` set. A property line is
      kept only when its trimmed text was not seen before, anywhere earlier in the file;
      every other line is kept. */
  function Dedup(lines: seq<string>): (r: (seq<string>, set<string>))
  {
    if lines == [] then ([], {})
    else
      var (kept, seen) := Dedup(lines[..|lines| - 1]);
      var line := lines[|lines| - 1];
      var t := Trim(line);
      if IsProperty(t) then (if t !in seen then (kept + [line], seen + {t}) else (kept, seen))
      else (kept + [line], seen)
  }

  /** A step of `Dedup`: the last line is kept, or dropped as a repeat. */
  lemma DedupStep(lines: seq<string>)
    requires lines != []
    ensures var p := lines[..|lines| - 1];
      var line := lines[|lines| - 1];
      var t := Trim(line);
      var (kept, seen) := Dedup(p);
      var r := Dedup(lines);
      && (IsProperty(t) && t in seen ==> r == (kept, seen))
      && (!(IsProperty(t) && t in seen) ==>
            && r.0 == kept + [line] && r.0[..|r.0| - 1] == kept && r.0[|r.0| - 1] == line
            && r.1 == seen + if IsProperty(t) then {t} else {})
  {
    var p := lines[..|lines| - 1];
    var (kept, seen) := Dedup(p);
    var r := Dedup(lines);
    if r.0 != kept {
      assert r.0[..|r.0| - 1] == kept;
    }
  }

  /** `seen` holds the property texts of the input, which are those of the kept lines. */
  lemma {:induction false} DedupSeen(lines: seq<string>)
    ensures Dedup(lines).1 == PropertyTexts(lines) == PropertyTexts(Dedup(lines).0)
    decreases |lines|
  {
    if lines != [] {
      DedupSeen(lines[..|lines| - 1]);
      DedupStep(lines);
    }
  }

  /** Each property text is kept once. */
  lemma {:induction false} DedupDistinct(lines: seq<string>)
    ensures DistinctProperties(Dedup(lines).0)
    decreases |lines|
  {
    if lines != [] {
      var p := lines[..|lines| - 1];
      DedupDistinct(p);
      DedupSeen(p);
      DedupStep(lines);
    }
  }

  /** Every line that is not a property line is kept, in order. */
  lemma {:induction false} DedupKeepsOtherLines(lines: seq<string>)
    ensures NonProperty(Dedup(lines).0) == NonProperty(lines)
    decreases |lines|
  {
    if lines != [] {
      DedupKeepsOtherLines(lines[..|lines| - 1]);
      DedupStep(lines);
    }
  }

  /** The CSS pass keeps a subsequence of its input. */
  lemma {:induction false} DedupIsSubseq(lines: seq<string>)
    ensures Subseq(Dedup(lines).0, lines)
    decreases |lines|
  {
    if lines != [] {
      var p := lines[..|lines| - 1];
      DedupIsSubseq(p);
      DedupStep(lines);
    }
  }

  /** Input whose property lines are already distinct passes through unchanged. */
  lemma {:induction false} DedupFixesDistinct(lines: seq<string>)
    requires DistinctProperties(lines)
    ensures Dedup(lines).0 == lines
    decreases |lines|
  {
    if lines != [] {
      var p := lines[..|lines| - 1];
      assert DistinctProperties(p);
      DedupFixesDistinct(p);
      DedupKeepsNewProperty(lines);
    }
  }

  /** When the last line's property text is new, `Dedup` keeps it after the lines it kept
      from the rest. */
  lemma DedupKeepsNewProperty(lines: seq<string>)
    requires lines != [] && DistinctProperties(lines)
    requires Dedup(lines[..|lines| - 1]).0 == lines[..|lines| - 1]
    ensures Dedup(lines).0 == lines
  {
    var p, line := lines[..|lines| - 1], lines[|lines| - 1];
    assert lines == p + [line];
    DedupSeen(p);
    assert !(IsProperty(Trim(line)) && Trim(line) in Dedup(p).1);
    DedupStep(lines);
  }

  /** `cleanCSS` on lines. */
  function CleanCSS(lines: seq<string>): seq<string>
  {
    Dedup(lines).0
  }

  /** The CSS pass is idempotent. */
  lemma CSSPassIdempotent(lines: seq<string>)
    ensures CleanCSS(CleanCSS(lines)) == CleanCSS(lines)
  {
    DedupDistinct(lines);
    DedupFixesDistinct(Dedup(lines).0);
  }

  /** The loop of `cleanCSS`. */
  method DedupCSSLines(lines: seq<string>) returns (uniqueLines: seq<string>)
    ensures uniqueLines == CleanCSS(lines)
    ensures Subseq(uniqueLines, lines) && DistinctProperties(uniqueLines)
    ensures PropertyTexts(uniqueLines) == PropertyTexts(lines)
    ensures NonProperty(uniqueLines) == NonProperty(lines)
  {
    uniqueLines := [];
    var seen: set<string> := {};
    for i := 0 to |lines|
      invariant (uniqueLines, seen) == Dedup(lines[..i])
    {
      assert lines[..i + 1][..i] == lines[..i];
      var line := lines[i];
      var trimmed := Trim(line);
      if IsProperty(trimmed) {
        if trimmed !in seen {
          seen := seen + {trimmed};
          uniqueLines := uniqueLines + [line];
        }
      } else {
        uniqueLines := uniqueLines + [line];
      }
    }
    assert lines[..|lines|] == lines;
    DedupIsSubseq(lines);
    DedupSeen(lines);
    DedupDistinct(lines);
    DedupKeepsOtherLines(lines);
  }

  // ---------------------------------------------------------------------------------
  // removeCommentedCode

  /** A comment line marked for removal: trimmed, it starts with "//" and mentions TODO,
      FIXME, DEBUG, console.log or logger.debug. */
  predicate IsMarkedComment(line: string)
  {
    var t := Trim(line);
    IsPrefix("//", t) &&
    (Contains(t, "TODO") || Contains(t, "FIXME") || Contains(t, "DEBUG") ||
     Contains(t, "console.log") || Contains(t, "logger.debug"))
  }

  /** `removeCommentedCode` on lines: exactly the marked comment lines are dropped, and
      the rest keep their order. */
  function RemoveCommentedCode(lines: seq<string>): (r: seq<string>)
    ensures Subseq(r, lines)
    ensures forall x :: x in r <==> x in lines && !IsMarkedComment(x)
    ensures forall x :: multiset(r)[x] == if IsMarkedComment(x) then 0 else multiset(lines)[x]
    ensures |r| <= |lines|
  {
    if lines == [] then []
    else
      var p := RemoveCommentedCode(lines[..|lines| - 1]);
      var line := lines[|lines| - 1];
      assert lines == lines[..|lines| - 1] + [line];
      CommentPassStep(lines[..|lines| - 1], p, line);
      if IsMarkedComment(line) then p else p + [line]
  }

  /** One more line: the comment pass of the longer input is the earlier one, plus the
      line when it is not marked. */
  lemma CommentPassStep(lines: seq<string>, p: seq<string>, line: string)
    requires Subseq(p, lines)
    requires forall x :: multiset(p)[x] == if IsMarkedComment(x) then 0 else multiset(lines)[x]
    requires |p| <= |lines|
    ensures var r := if IsMarkedComment(line) then p else p + [line];
      && Subseq(r, lines + [line])
      && (forall x :: multiset(r)[x] == if IsMarkedComment(x) then 0 else multiset(lines + [line])[x])
      && (forall x :: x in r <==> x in lines + [line] && !IsMarkedComment(x))
      && |r| <= |lines + [line]|
  {
    var s := lines + [line];
    assert s[..|s| - 1] == lines;
    assert multiset(s) == multiset(lines) + multiset{line};
    var r := if IsMarkedComment(line) then p else p + [line];
    if !IsMarkedComment(line) {
      assert r[..|r| - 1] == p;
      assert multiset(r) == multiset(p) + multiset{line};
    }
    assert forall x :: x in r <==> multiset(r)[x] > 0;
    assert forall x :: x in s <==> multiset(s)[x] > 0;
  }

  /** Filtering again removes nothing more. */
  lemma {:induction false} CommentPassIdempotent(lines: seq<string>)
    ensures RemoveCommentedCode(RemoveCommentedCode(lines)) == RemoveCommentedCode(lines)
    decreases |lines|
  {
    if lines != [] {
      var p := lines[..|lines| - 1];
      CommentPassIdempotent(p);
      var r := RemoveCommentedCode(lines);
      var q := RemoveCommentedCode(p);
      if r != q {
        assert r == q + [lines[|lines| - 1]] && r[..|r| - 1] == q;
      }
    }
  }

  // ---------------------------------------------------------------------------------
  // cleanConstants and removeUnusedCode

  /** `allUsages`: the sources that exist, concatenated with nothing between them. */
  function Concat(files: seq<string>): string
  {
    if files == [] then "" else Concat(files[..|files| - 1]) + files[|files| - 1]
  }

  /** The constants `cleanConstants` reports, in the order they are checked: those not
      found in the concatenated sources. */
  function UnusedConstants(names: seq<string>, files: seq<string>): (r: seq<string>)
    ensures Subseq(r, names)
    ensures forall x :: x in r <==> x in names && !Contains(Concat(files), x)
  {
    if names == [] then []
    else
      var p := UnusedConstants(names[..|names| - 1], files);
      var x := names[|names| - 1];
      assert names == names[..|names| - 1] + [x];
      if Contains(Concat(files), x) then p
      else
        assert (p + [x])[..|p|] == p;
        p + [x]
  }

  /** A file's text is inside the concatenation. */
  lemma {:induction false} FileInConcat(files: seq<string>, i: nat, x: string)
    requires i < |files| && Contains(files[i], x)
    ensures Contains(Concat(files), x)
    decreases |files|
  {
    var p := files[..|files| - 1];
    if i == |files| - 1 {
      ContainsPrefixed(Concat(p), files[i], x);
    } else {
      assert p[i] == files[i];
      FileInConcat(p, i, x);
      ContainsInPrefix(Concat(p), files[|files| - 1], x);
    }
  }

  /** A constant used in one of the sources is never reported. */
  lemma UsedConstantNotReported(names: seq<string>, files: seq<string>, i: nat, x: string)
    requires i < |files| && Contains(files[i], x)
    ensures x !in UnusedConstants(names, files)
  {
    FileInConcat(files, i, x);
  }

  /** Because the sources are joined with no separator, a name split across the end of
      one file and the start of the next counts as used though no file contains it. */
  lemma BoundaryMatchCountsAsUse()
    ensures var files := ["VOICE_", "TYPES"];
      && !Contains(files[0], "VOICE_TYPES") && !Contains(files[1], "VOICE_TYPES")
      && "VOICE_TYPES" !in UnusedConstants(["VOICE_TYPES"], files)
  {
    var files := ["VOICE_", "TYPES"];
    ShortNeverContains(files[0], "VOICE_TYPES");
    ShortNeverContains(files[1], "VOICE_TYPES");
    assert Concat(files) == "VOICE_TYPES" by {
      assert files[..1] == ["VOICE_"] && files[..0] == [];
    }
    assert IsPrefix("VOICE_TYPES", Concat(files));
  }

  lemma {:induction false} ShortNeverContains(s: string, sub: string)
    requires |s| < |sub|
    ensures !Contains(s, sub)
    decreases |s|
  {
    if |s| > 0 {
      ShortNeverContains(s[1..], sub);
    }
  }

  /** The characters `\b` treats as word characters. */
  predicate IsWordChar(c: char)
  {
    'a' <= c <= 'z' || 'A' <= c <= 'Z' || '0' <= c <= '9' || c == '_'
  }

  /** `name` occurs at `i` as a whole word. */
  predicate WordAt(content: string, name: string, i: nat)
  {
    i + |name| <= |content| && content[i..i + |name|] == name &&
    (i == 0 || !IsWordChar(content[i - 1])) &&
    (i + |name| == |content| || !IsWordChar(content[i + |name|]))
  }

  /** The number of whole-word occurrences of `name` starting before `n`. */
  function WordCount(content: string, name: string, n: nat): (k: nat)
    ensures k <= n
  {
    if n == 0 then 0 else WordCount(content, name, n - 1) + if WordAt(content, name, n - 1) then 1 else 0
  }

  /** `removeUnusedCode`'s check of one required name: it is reported when it occurs at
      most once as a whole word, that once being its own `require` line. */
  predicate UnusedRequire(content: string, name: string)
  {
    WordCount(content, name, |content|) <= 1
  }

  /** Occurrences after the last word start are not counted twice. */
  lemma {:induction false} WordCountMonotone(content: string, name: string, m: nat, n: nat)
    requires m <= n
    ensures WordCount(content, name, m) <= WordCount(content, name, n)
    decreases n - m
  {
    if m < n {
      WordCountMonotone(content, name, m, n - 1);
    }
  }

  /** Two whole-word occurrences of a name keep it from being reported. */
  lemma {:induction false} TwoUsesNotReported(content: string, name: string, i: nat, j: nat)
    requires name != "" && i < j && WordAt(content, name, i) && WordAt(content, name, j)
    ensures !UnusedRequire(content, name)
  {
    WordCountMonotone(content, name, j + 1, |content|);
    WordCountMonotone(content, name, i + 1, j);
    assert WordCount(content, name, i + 1) >= 1;
  }

  /** A name whose only whole-word occurrence (if any) is at `i` is reported: counting
      the occurrences that start before `n` finds at most that one. */
  lemma {:induction false} OneUseReported(content: string, name: string, i: nat, n: nat)
    requires n <= |content|
    requires forall k | 0 <= k < |content| && WordAt(content, name, k) :: k == i
    ensures WordCount(content, name, n) <= if i < n then 1 else 0
    ensures n == |content| ==> UnusedRequire(content, name)
    decreases n
  {
    if n > 0 {
      OneUseReported(content, name, i, n - 1);
    }
  }

  /** A name inside a longer identifier is not a use: `fs` within `fsExtra` does not count. */
  lemma LongerIdentifierIsNoUse()
    ensures !WordAt("fsExtra", "fs", 0)
  {
  }

  // ---------------------------------------------------------------------------------
  // runCleanup

  /** How one cleanup task ended. */
  datatype TaskOutcome = Completed | Threw(message: string)

  /** The messages of the tasks that threw, in order. */
  function Errors(tasks: seq<TaskOutcome>): (r: seq<string>)
    ensures |r| <= |tasks|
  {
    if tasks == [] then []
    else Errors(tasks[..|tasks| - 1]) + match tasks[|tasks| - 1]
      case Completed => []
      case Threw(m) => [m]
  }

  /** `runCleanup`: when the backup fails nothing runs; otherwise every task is run, each in
      its own `try`, so one that throws is logged and the later ones still run. */
  method RunCleanup(backupFails: bool, tasks: seq<TaskOutcome>)
    returns (ran: nat, logged: seq<string>)
    ensures backupFails ==> ran == 0 && logged == []
    ensures !backupFails ==> ran == |tasks| && logged == Errors(tasks)
  {
    ran, logged := 0, [];
    if backupFails {
      return;
    }
    while ran < |tasks|
      invariant ran <= |tasks| && logged == Errors(tasks[..ran])
    {
      assert tasks[..ran + 1][..ran] == tasks[..ran];
      if tasks[ran].Threw? {
        logged := logged + [tasks[ran].message];
      }
      ran := ran + 1;
    }
    assert tasks[..ran] == tasks;
  }
}
