/**
 * The text pipeline `paste` runs over clipboard text: split at '\n', strip a
 * leading list bullet (and an optional checkbox) from each line, trim
 * surrounding white space, and drop the lines left empty.
 */
module LineText {
  import opened Wrappers

  /** The pieces of `s` between line feeds, like JavaScript's `s.split('\n')`. */
  function SplitLines(s: string): (lines: seq<string>)
    ensures |lines| >= 1
    ensures forall k :: 0 <= k < |lines| ==> '\n' !in lines[k]
  {
    if s == [] then [""]
    else if s[0] == '\n' then [""] + SplitLines(s[1..])
    else
      var rest := SplitLines(s[1..]);
      [[s[0]] + rest[0]] + rest[1..]
  }

  /** The pieces joined back with line feeds between them. */
  function JoinLines(lines: seq<string>): string
    requires |lines| >= 1
  {
    if |lines| == 1 then lines[0] else lines[0] + "\n" + JoinLines(lines[1..])
  }

  /** Splitting loses nothing: the pieces joined back give the clipboard text. */
  lemma {:induction false} JoinSplitLines(s: string)
    ensures JoinLines(SplitLines(s)) == s
  {
    if s == [] {
    } else if s[0] == '\n' {
      JoinSplitLines(s[1..]);
      assert SplitLines(s)[1..] == SplitLines(s[1..]);
    } else {
      var rest := SplitLines(s[1..]);
      JoinSplitLines(s[1..]);
      var lines := SplitLines(s);
      assert lines[1..] == rest[1..];
      if |rest| == 1 {
      } else {
        assert JoinLines(rest) == rest[0] + "\n" + JoinLines(rest[1..]);
        assert JoinLines(lines) == [s[0]] + rest[0] + "\n" + JoinLines(rest[1..]);
      }
    }
  }

  // ---- The bullet pattern ^[\W]*(-|\*) (\[( |x)\] )? --------------------

  /** A character `\w` matches (without the Unicode flag). */
  predicate IsWordChar(c: char) {
    ('a' <= c <= 'z') || ('A' <= c <= 'Z') || ('0' <= c <= '9') || c == '_'
  }

  /** The length of the run of non-word characters that `s` starts with. */
  function NonWordRun(s: string): (n: nat)
    ensures n <= |s|
    ensures forall k :: 0 <= k < n ==> !IsWordChar(s[k])
    ensures n < |s| ==> IsWordChar(s[n])
  {
    if s == [] || IsWordChar(s[0]) then 0 else 1 + NonWordRun(s[1..])
  }

  /** `- ` or `* ` starts at position p. */
  predicate BulletAt(s: string, p: nat) {
    p + 1 < |s| && (s[p] == '-' || s[p] == '*') && s[p + 1] == ' '
  }

  /** The last bullet that starts before position `hi`, if there is one. */
  function LastBulletBefore(s: string, hi: nat): (r: Option<nat>)
    requires hi <= |s|
    ensures r.Some? ==> r.value < hi && BulletAt(s, r.value)
    ensures r.Some? ==> forall q :: r.value < q < hi ==> !BulletAt(s, q)
    ensures r.None? ==> forall q :: 0 <= q < hi ==> !BulletAt(s, q)
  {
    if hi == 0 then None
    else if BulletAt(s, hi - 1) then Some(hi - 1)
    else LastBulletBefore(s, hi - 1)
  }

  /** The text `[ ] ` or `[x] ` starts at position p. */
  predicate CheckboxAt(s: string, p: nat) {
    p + 4 <= |s| && (s[p..p + 4] == "[ ] " || s[p..p + 4] == "[x] ")
  }

  /** Every character before position q is a non-word character. */
  predicate NonWordBefore(s: string, q: nat)
    requires q <= |s|
  {
    forall k :: 0 <= k < q ==> !IsWordChar(s[k])
  }

  /** A bullet at p that `^[\W]*` can reach: only non-word characters precede it. */
  predicate ReachableBullet(s: string, p: nat) {
    BulletAt(s, p) && NonWordBefore(s, p)
  }

  /** p is the last reachable bullet, the one the backtracking match settles on. */
  predicate LastReachableBullet(s: string, p: nat) {
    ReachableBullet(s, p) && forall q :: p < q < |s| ==> !ReachableBullet(s, q)
  }

  /**
   * The reachable bullets are exactly the bullets inside the leading run of
   * non-word characters, so the last bullet of that run is the last
   * reachable one, and without a bullet in the run none is reachable.
   */
  lemma BulletMatchIsPattern(s: string)
    ensures LastBulletBefore(s, NonWordRun(s)).Some? ==>
      LastReachableBullet(s, LastBulletBefore(s, NonWordRun(s)).value)
    ensures LastBulletBefore(s, NonWordRun(s)).None? ==>
      forall q :: 0 <= q < |s| ==> !ReachableBullet(s, q)
  {
    var n := NonWordRun(s);
    NoReachableBulletAfterRun(s);
    var m := LastBulletBefore(s, n);
    if m.Some? {
      var p := m.value;
      assert forall q :: p < q < n ==> !BulletAt(s, q);
      assert NonWordBefore(s, p);
    } else {
      assert forall q :: 0 <= q < n ==> !BulletAt(s, q);
    }
  }

  /** No bullet at or after the end of the leading non-word run is reachable. */
  lemma NoReachableBulletAfterRun(s: string)
    ensures forall q :: NonWordRun(s) <= q < |s| ==> !ReachableBullet(s, q)
  {
    var n := NonWordRun(s);
    forall q | n <= q < |s|
      ensures !ReachableBullet(s, q)
    {
      assert IsWordChar(s[n]);
    }
  }

  /** There is only one last reachable bullet. */
  lemma LastReachableBulletUnique(s: string, p: nat, q: nat)
    requires LastReachableBullet(s, p) && LastReachableBullet(s, q)
    ensures p == q
  {
  }

  /**
   * Where a match of the bullet pattern anchored at the start ends, if it
   * matches: after the bullet, and after the checkbox that follows it when
   * there is one.
   */
  function BulletMatchEnd(s: string): (r: Option<nat>)
    ensures r.Some? ==> 2 <= r.value <= |s|
  {
    match LastBulletBefore(s, NonWordRun(s))
    case None => None
    case Some(p) => if CheckboxAt(s, p + 2) then Some(p + 6) else Some(p + 2)
  }

  /** `s.replace(/^[\W]*(-|\*) (\[( |x)\] )?/, '')`. */
  function StripBullet(s: string): (r: string)
    ensures |r| <= |s| && r == s[|s| - |r|..]
    ensures BulletMatchEnd(s).None? ==> r == s
  {
    match BulletMatchEnd(s)
    case None => s
    case Some(end) => s[end..]
  }

  /**
   * Stripping is the regular expression's replace. The greedy `[\W]*`
   * backtracks from the whole leading run of non-word characters, so the
   * LAST reachable bullet is the one matched, with the checkbox after it
   * whenever it is there. With no reachable bullet nothing matches and the
   * line is kept; otherwise it loses the bullet, and the checkbox if any.
   */
  lemma StripBulletIsReplace(s: string)
    ensures (forall q :: 0 <= q < |s| ==> !ReachableBullet(s, q)) ==>
      BulletMatchEnd(s).None? && StripBullet(s) == s
    ensures (exists q :: 0 <= q < |s| && ReachableBullet(s, q)) ==>
      && |StripBullet(s)| <= |s| - 2
      && exists p: nat ::
        && LastReachableBullet(s, p)
        && BulletMatchEnd(s) == Some(if CheckboxAt(s, p + 2) then p + 6 else p + 2)
        && StripBullet(s) == if CheckboxAt(s, p + 2) then s[p + 6..] else s[p + 2..]
  {
    BulletMatchIsPattern(s);
    if LastBulletBefore(s, NonWordRun(s)).Some? {
      StripAtLastBullet(s, LastBulletBefore(s, NonWordRun(s)).value);
    }
  }

  /** Stripping at the last reachable bullet `p`. */
  lemma StripAtLastBullet(s: string, p: nat)
    requires LastBulletBefore(s, NonWordRun(s)) == Some(p)
    ensures var e := if CheckboxAt(s, p + 2) then p + 6 else p + 2;
      BulletMatchEnd(s) == Some(e) && StripBullet(s) == s[e..] && |StripBullet(s)| <= |s| - 2
  {
  }

  // ---- String.prototype.trim -----------------------------------------

  /** The white space and line terminators `trim` removes. */
  predicate IsTrimmed(c: char) {
    || ('\t' <= c <= '\r')                    // tab, line feed, vertical tab, form feed, carriage return
    || c == ' ' || c == '\U{A0}' || c == '\U{1680}'
    || ('\U{2000}' <= c <= '\U{200A}')
    || c == '\U{2028}' || c == '\U{2029}' || c == '\U{202F}' || c == '\U{205F}'
    || c == '\U{3000}' || c == '\U{FEFF}'
  }

  /** How many white-space characters `s` starts with. */
  function LeadingSpace(s: string): (n: nat)
    ensures n <= |s|
    ensures forall k :: 0 <= k < n ==> IsTrimmed(s[k])
    ensures n < |s| ==> !IsTrimmed(s[n])
  {
    if s != [] && IsTrimmed(s[0]) then 1 + LeadingSpace(s[1..]) else 0
  }

  /** How many white-space characters `s` ends with. */
  function TrailingSpace(s: string): (n: nat)
    ensures n <= |s|
    ensures forall k :: |s| - n <= k < |s| ==> IsTrimmed(s[k])
    ensures n < |s| ==> !IsTrimmed(s[|s| - 1 - n])
  {
    if s != [] && IsTrimmed(s[|s| - 1]) then 1 + TrailingSpace(s[..|s| - 1]) else 0
  }

  /** `s.trim()`: `s` without the white space it starts and ends with. */
  function Trim(s: string): (r: string)
    ensures exists i, j ::
      && 0 <= i <= j <= |s| && r == s[i..j]
      && (forall k :: 0 <= k < i ==> IsTrimmed(s[k]))
      && (forall k :: j <= k < |s| ==> IsTrimmed(s[k]))
    ensures r != [] ==> !IsTrimmed(r[0]) && !IsTrimmed(r[|r| - 1])
  {
    var i := LeadingSpace(s);
    var j := if i == |s| then i else |s| - TrailingSpace(s);
    s[i..j]
  }

  /** One line as `paste` cleans it: bullet stripped, then trimmed. */
  function CleanLine(line: string): (r: string)
    ensures forall c :: c in r ==> c in line
    ensures r != [] ==> !IsTrimmed(r[0]) && !IsTrimmed(r[|r| - 1])
  {
    CleanLineIsSlice(line);
    Trim(StripBullet(line))
  }

  /**
   * The cleaned line is a slice of the part of the line that stripping the
   * bullet keeps, so it holds none of the bullet's characters.
   */
  lemma CleanLineIsSlice(line: string)
    ensures var r := Trim(StripBullet(line));
      && (exists i, j :: |line| - |StripBullet(line)| <= i <= j <= |line| && r == line[i..j])
      && (forall c :: c in r ==> c in line)
  {
    var t := StripBullet(line);
    var d := |line| - |t|;
    assert t == line[d..];
    TrimOfSuffix(line, d);
  }

  /** Trimming a suffix of `line` gives a slice of `line` that starts no earlier than the suffix. */
  lemma TrimOfSuffix(line: string, d: nat)
    requires d <= |line|
    ensures exists i, j :: d <= i <= j <= |line| && Trim(line[d..]) == line[i..j]
  {
    var t := line[d..];
    var i := LeadingSpace(t);
    var j := if i == |t| then i else |t| - TrailingSpace(t);
    assert Trim(t) == t[i..j];
    SliceOfSuffix(line, d, i, j);
  }

  lemma SliceOfSuffix(line: string, d: nat, i: nat, j: nat)
    requires d <= |line| && i <= j <= |line| - d
    ensures line[d..][i..j] == line[d + i..d + j]
  {
  }

  /** `.filter(s => !!s)`: the non-empty strings, in order. */
  function NonEmpty(lines: seq<string>): (r: seq<string>)
    ensures |r| <= |lines|
    ensures forall k :: 0 <= k < |r| ==> r[k] != [] && r[k] in lines
    ensures forall k :: 0 <= k < |lines| && lines[k] != [] ==> lines[k] in r
  {
    if lines == [] then []
    else
      var rest := NonEmpty(lines[1..]);
      assert forall k :: 1 <= k < |lines| ==> lines[k] == lines[1..][k - 1];
      if lines[0] == [] then rest else [lines[0]] + rest
  }

  /** Filtering two blocks of lines gives the two results joined. */
  lemma {:induction false} NonEmptyAppend(a: seq<string>, b: seq<string>)
    ensures NonEmpty(a + b) == NonEmpty(a) + NonEmpty(b)
  {
    if a == [] {
      assert a + b == b;
    } else {
      assert (a + b)[1..] == a[1..] + b;
      NonEmptyAppend(a[1..], b);
    }
  }

  /** `.map(...)` of the cleaning steps: every line cleaned, in place. */
  function CleanAll(lines: seq<string>): (r: seq<string>)
    ensures |r| == |lines|
    ensures forall k :: 0 <= k < |lines| ==> r[k] == CleanLine(lines[k])
  {
    seq(|lines|, k requires 0 <= k < |lines| => CleanLine(lines[k]))
  }

  /** A line worth pasting: non-empty, a single line, and trimmed at both ends. */
  predicate Pastable(t: string) {
    t != [] && '\n' !in t && !IsTrimmed(t[0]) && !IsTrimmed(t[|t| - 1])
  }

  /**
   * The lines a clipboard text pastes as: split, cleaned one by one, and the
   * empty ones dropped, in clipboard order.
   */
  function PastedLines(clipboard: string): (r: seq<string>)
    ensures var cleaned := CleanAll(SplitLines(clipboard));
      && |r| <= |cleaned|
      && (forall k :: 0 <= k < |r| ==> Pastable(r[k]) && r[k] in cleaned)
      && (forall j :: 0 <= j < |cleaned| && cleaned[j] != [] ==> cleaned[j] in r)
  {
    PastedFromLines(SplitLines(clipboard));
    NonEmpty(CleanAll(SplitLines(clipboard)))
  }

  /** What `PastedLines` promises, for any single lines in place of the clipboard's. */
  lemma PastedFromLines(lines: seq<string>)
    requires forall k :: 0 <= k < |lines| ==> '\n' !in lines[k]
    ensures var cleaned := CleanAll(lines); var r := NonEmpty(cleaned);
      && |r| <= |cleaned|
      && (forall k :: 0 <= k < |r| ==> Pastable(r[k]) && r[k] in cleaned)
      && (forall j :: 0 <= j < |cleaned| && cleaned[j] != [] ==> cleaned[j] in r)
  {
    CleanedLinesPastable(lines);
  }

  /** Every line kept from cleaned single lines is pastable. */
  lemma CleanedLinesPastable(lines: seq<string>)
    requires forall k :: 0 <= k < |lines| ==> '\n' !in lines[k]
    ensures var r := NonEmpty(CleanAll(lines));
      forall k :: 0 <= k < |r| ==> Pastable(r[k])
  {
    var cleaned := CleanAll(lines);
    forall k | 0 <= k < |cleaned| && cleaned[k] != []
      ensures Pastable(cleaned[k])
    {
      CleanLinePastable(lines[k]);
    }
    NonEmptyPastable(cleaned);
  }

  /** A single line that cleans to a non-empty text cleans to a pastable one. */
  lemma CleanLinePastable(line: string)
    requires '\n' !in line
    ensures CleanLine(line) != [] ==> Pastable(CleanLine(line))
  {
  }

  /** Filtering keeps only non-empty entries, so it keeps only pastable ones when those are all pastable. */
  lemma NonEmptyPastable(cleaned: seq<string>)
    requires forall k :: 0 <= k < |cleaned| && cleaned[k] != [] ==> Pastable(cleaned[k])
    ensures forall k :: 0 <= k < |NonEmpty(cleaned)| ==> Pastable(NonEmpty(cleaned)[k])
  {
    var r := NonEmpty(cleaned);
    forall k | 0 <= k < |r|
      ensures Pastable(r[k])
    {
      var j :| 0 <= j < |cleaned| && cleaned[j] == r[k];
    }
  }

  /** `x` is a word character, so the leading non-word run of `- [x] done` is `- [`. */
  lemma BulletedLineRun()
    ensures NonWordRun("- [x] done") == 3
  {
    var s := "- [x] done";
    assert s[1..] == " [x] done" && s[1..][1..] == "[x] done" && s[1..][1..][1..] == "x] done";
  }

  /** The bullet and the checkbox of `- [x] done` are matched and removed. */
  lemma StripBulletedLine()
    ensures StripBullet("- [x] done") == "done"
  {
    var s := "- [x] done";
    BulletedLineRun();
    assert LastBulletBefore(s, 1) == Some(0) by {
      assert BulletAt(s, 0);
    }
    assert LastBulletBefore(s, 3) == Some(0) by {
      assert !BulletAt(s, 2) && !BulletAt(s, 1);
    }
    assert CheckboxAt(s, 2) by {
      assert s[2..6] == "[x] ";
    }
    assert BulletMatchEnd(s) == Some(6);
    assert s[6..] == "done";
  }

  /** A bulleted checklist line cleans to its bare text. */
  lemma CleanBulletedLine()
    ensures CleanLine("- [x] done") == "done"
  {
    StripBulletedLine();
    assert LeadingSpace("done") == 0 && TrailingSpace("done") == 0;
  }
}
