/** Normalising the wording of a request before it is shown or compared. */
module TextNormalize {

  /** `QChar::isSpace` */
  predicate IsSpace(c: char) {
    var u := c as int;
    u == 0x20 || 9 <= u <= 13 || u == 0x85 || u == 0xA0 || u == 0x1680 || 0x2000 <= u <= 0x200A
    || u == 0x2028 || u == 0x2029 || u == 0x202F || u == 0x205F || u == 0x3000
  }

  predicate IsReturn(c: char) {
    c == '\r'
  }

  predicate IsNewline(c: char) {
    c == '\n'
  }

  /** The parts between separators, empty ones included. */
  function Split(s: string, sep: char -> bool): (r: seq<string>)
    ensures r != []
  {
    if s == [] then [""]
    else
      var rest := Split(s[1..], sep);
      if sep(s[0]) then [""] + rest else [[s[0]] + rest[0]] + rest[1..]
  }

  function Join(parts: seq<string>, c: char): string {
    if parts == [] then "" else if |parts| == 1 then parts[0] else parts[0] + [c] + Join(parts[1..], c)
  }

  function NonEmpty(parts: seq<string>): seq<string> {
    if parts == [] then []
    else if parts[0] == "" then NonEmpty(parts[1..])
    else [parts[0]] + NonEmpty(parts[1..])
  }

  /** `QString::simplified`: the words, one blank apart. */
  function Simplified(s: string): string {
    Join(NonEmpty(Split(s, IsSpace)), ' ')
  }

  function Replaced(s: string, which: char -> bool, to: char): string {
    if s == [] then "" else [if which(s[0]) then to else s[0]] + Replaced(s[1..], which, to)
  }

  /** Each line simplified, and those that are left with nothing dropped. */
  function Cleaned(lines: seq<string>): seq<string> {
    if lines == [] then []
    else if Simplified(lines[0]) == "" then Cleaned(lines[1..])
    else [Simplified(lines[0])] + Cleaned(lines[1..])
  }

  function DetailLines(text: string): seq<string> {
    Cleaned(Split(Replaced(text, IsReturn, '\n'), IsNewline))
  }

  function NormalizedDetail(text: string): string {
    Join(DetailLines(text), '\n')
  }

  /** `toLower`, one character at a time; a character may become several. */
  function Lowered(s: string, lower: char -> string): string {
    if s == [] then "" else lower(s[0]) + Lowered(s[1..], lower)
  }

  /** What is known of lower-casing: its results are lower case, and a blank stays one. */
  ghost predicate LowerCase(lower: char -> string) {
    lower(' ') == " " && forall c, i :: 0 <= i < |lower(c)| ==> lower(lower(c)[i]) == [lower(c)[i]]
  }

  predicate IsPunctuation(c: char) {
    c == '`' || c == '"' || c == ',' || c == '.'
  }

  function NormalizedCompare(text: string, lower: char -> string): string {
    Simplified(Replaced(Lowered(NormalizedDetail(text), lower), IsPunctuation, ' '))
  }

  // ---- splitting and joining

  ghost predicate All(s: string, ok: char -> bool) {
    forall i :: 0 <= i < |s| ==> ok(s[i])
  }

  /** Parts without separators. */
  ghost predicate Whole(parts: seq<string>, sep: char -> bool) {
    forall i, k :: 0 <= i < |parts| && 0 <= k < |parts[i]| ==> !sep(parts[i][k])
  }

  lemma {:induction false} SplitParts(s: string, sep: char -> bool)
    ensures Whole(Split(s, sep), sep)
  {
    if s != [] {
      SplitParts(s[1..], sep);
    }
  }

  /** Every character of a part is a character of the whole. */
  lemma {:induction false} SplitChars(s: string, sep: char -> bool, ok: char -> bool)
    requires All(s, ok)
    ensures forall i :: 0 <= i < |Split(s, sep)| ==> All(Split(s, sep)[i], ok)
  {
    if s != [] {
      SplitChars(s[1..], sep, ok);
    }
  }

  lemma {:induction false} JoinChars(parts: seq<string>, c: char, ok: char -> bool)
    requires ok(c) && forall i :: 0 <= i < |parts| ==> All(parts[i], ok)
    ensures All(Join(parts, c), ok)
  {
    if |parts| > 1 {
      JoinChars(parts[1..], c, ok);
    }
  }

  lemma {:induction false} SplitOne(s: string, sep: char -> bool)
    requires forall i :: 0 <= i < |s| ==> !sep(s[i])
    ensures Split(s, sep) == [s]
  {
    if s != [] {
      SplitOne(s[1..], sep);
      assert [s[0]] + s[1..] == s;
    }
  }

  lemma {:induction false} SplitFirst(s: string, c: char, rest: string, sep: char -> bool)
    requires sep(c) && forall i :: 0 <= i < |s| ==> !sep(s[i])
    ensures Split(s + [c] + rest, sep) == [s] + Split(rest, sep)
  {
    if s == [] {
      assert (s + [c] + rest)[1..] == rest;
    } else {
      assert (s + [c] + rest)[1..] == s[1..] + [c] + rest;
      SplitFirst(s[1..], c, rest, sep);
      assert [s[0]] + s[1..] == s;
    }
  }

  /** Splitting undoes joining. */
  lemma {:induction false} SplitJoin(parts: seq<string>, c: char, sep: char -> bool)
    requires parts != [] && Whole(parts, sep) && sep(c)
    ensures Split(Join(parts, c), sep) == parts
  {
    if |parts| == 1 {
      SplitOne(parts[0], sep);
    } else {
      SplitJoin(parts[1..], c, sep);
      SplitFirst(parts[0], c, Join(parts[1..], c), sep);
    }
  }

  // ---- simplifying

  lemma {:induction false} NonEmptyParts(parts: seq<string>, sep: char -> bool)
    requires Whole(parts, sep)
    ensures Whole(NonEmpty(parts), sep) && forall i :: 0 <= i < |NonEmpty(parts)| ==> NonEmpty(parts)[i] != ""
  {
    if parts != [] {
      NonEmptyParts(parts[1..], sep);
    }
  }

  lemma {:induction false} NonEmptyChars(parts: seq<string>, ok: char -> bool)
    requires forall i :: 0 <= i < |parts| ==> All(parts[i], ok)
    ensures forall i :: 0 <= i < |NonEmpty(parts)| ==> All(NonEmpty(parts)[i], ok)
  {
    if parts != [] {
      NonEmptyChars(parts[1..], ok);
    }
  }

  lemma {:induction false} NonEmptyAlready(parts: seq<string>)
    requires forall i :: 0 <= i < |parts| ==> parts[i] != ""
    ensures NonEmpty(parts) == parts
  {
    if parts != [] {
      NonEmptyAlready(parts[1..]);
    }
  }

  lemma SimplifiedEmpty()
    ensures Simplified("") == ""
  {
    assert [""][1..] == [];
    assert NonEmpty([""]) == [];
  }

  lemma SimplifiedIdempotent(s: string)
    ensures Simplified(Simplified(s)) == Simplified(s)
  {
    var words := NonEmpty(Split(s, IsSpace));
    SplitParts(s, IsSpace);
    NonEmptyParts(Split(s, IsSpace), IsSpace);
    if words != [] {
      SplitJoin(words, ' ', IsSpace);
      NonEmptyAlready(words);
    } else {
      SimplifiedEmpty();
    }
  }

  lemma NoSpaceInWords(s: string)
    ensures forall i :: 0 <= i < |Split(s, IsSpace)| ==> All(Split(s, IsSpace)[i], (c: char) => !IsSpace(c))
  {
    SplitParts(s, IsSpace);
  }

  /** A simplified text has no other space than blanks, and only characters it had before. */
  lemma SimplifiedChars(s: string, ok: char -> bool)
    requires All(s, ok) && ok(' ')
    ensures All(Simplified(s), ok) && All(Simplified(s), (c: char) => c == ' ' || !IsSpace(c))
  {
    var parts := Split(s, IsSpace);
    SplitChars(s, IsSpace, ok);
    NonEmptyChars(parts, ok);
    JoinChars(NonEmpty(parts), ' ', ok);
    NoSpaceInWords(s);
    NonEmptyChars(parts, (c: char) => !IsSpace(c));
    JoinChars(NonEmpty(parts), ' ', (c: char) => c == ' ' || !IsSpace(c));
  }

  lemma SimplifiedStart(s: string)
    requires Simplified(s) != ""
    ensures !IsSpace(Simplified(s)[0])
  {
    var words := NonEmpty(Split(s, IsSpace));
    SplitParts(s, IsSpace);
    NonEmptyParts(Split(s, IsSpace), IsSpace);
    assert words[0] != "" && !IsSpace(words[0][0]);
  }

  // ---- idempotence

  /** What cleaning leaves: simplified lines, none empty. */
  ghost predicate AreClean(lines: seq<string>) {
    forall i :: 0 <= i < |lines| ==> lines[i] != "" && Simplified(lines[i]) == lines[i]
  }

  lemma {:induction false} CleanedAreClean(lines: seq<string>)
    ensures AreClean(Cleaned(lines))
  {
    if lines != [] {
      SimplifiedIdempotent(lines[0]);
      CleanedAreClean(lines[1..]);
    }
  }

  lemma {:induction false} CleanStay(lines: seq<string>)
    requires AreClean(lines)
    ensures Cleaned(lines) == lines
  {
    if lines != [] {
      CleanStay(lines[1..]);
    }
  }

  lemma CleanLine(line: string)
    requires Simplified(line) == line
    ensures All(line, (c: char) => c == ' ' || !IsSpace(c))
  {
    SimplifiedChars(line, (c: char) => true);
  }

  lemma {:induction false} NothingToReplace(s: string, which: char -> bool, to: char)
    requires forall i :: 0 <= i < |s| ==> !which(s[i])
    ensures Replaced(s, which, to) == s
  {
    if s != [] {
      NothingToReplace(s[1..], which, to);
    }
  }

  /** The lines of a joined text are the lines joined. */
  lemma DetailLinesOf(lines: seq<string>)
    requires AreClean(lines)
    ensures DetailLines(Join(lines, '\n')) == lines
    ensures lines != [] ==> Split(Join(lines, '\n'), IsNewline) == lines
  {
    var proper := (c: char) => c == ' ' || !IsSpace(c);
    var joined := Join(lines, '\n');
    forall i | 0 <= i < |lines| ensures All(lines[i], proper) {
      CleanLine(lines[i]);
    }
    JoinChars(lines, '\n', (c: char) => c != '\r');
    NothingToReplace(joined, IsReturn, '\n');
    if lines != [] {
      forall i, k | 0 <= i < |lines| && 0 <= k < |lines[i]| ensures !IsNewline(lines[i][k]) {
        assert proper(lines[i][k]);
      }
      SplitJoin(lines, '\n', IsNewline);
      CleanStay(lines);
    } else {
      SimplifiedEmpty();
      assert [""][1..] == [];
      assert Cleaned([""]) == [];
    }
  }

  lemma DetailIdempotent(text: string)
    ensures NormalizedDetail(NormalizedDetail(text)) == NormalizedDetail(text)
  {
    CleanedAreClean(Split(Replaced(text, IsReturn, '\n'), IsNewline));
    DetailLinesOf(DetailLines(text));
  }

  lemma {:induction false} LoweredChars(s: string, lower: char -> string)
    requires LowerCase(lower)
    ensures All(Lowered(s, lower), (c: char) => lower(c) == [c])
  {
    if s != [] {
      LoweredChars(s[1..], lower);
    }
  }

  lemma {:induction false} LowerStays(s: string, lower: char -> string)
    requires All(s, (c: char) => lower(c) == [c])
    ensures Lowered(s, lower) == s
  {
    if s != [] {
      assert lower(s[0]) == [s[0]];
      LowerStays(s[1..], lower);
    }
  }

  lemma {:induction false} ReplacedChars(s: string, which: char -> bool, to: char, ok: char -> bool)
    requires All(s, ok) && ok(to) && !which(to)
    ensures All(Replaced(s, which, to), (c: char) => ok(c) && !which(c))
  {
    if s != [] {
      ReplacedChars(s[1..], which, to, ok);
    }
  }

  /** A line that is already simplified is its own detail text. */
  lemma LineIsDetail(s: string)
    requires Simplified(s) == s
    ensures NormalizedDetail(s) == s
  {
    if s != "" {
      DetailLinesOf([s]);
    } else {
      DetailLinesOf([]);
    }
  }

  lemma CompareIdempotent(text: string, lower: char -> string)
    requires LowerCase(lower)
    ensures NormalizedCompare(NormalizedCompare(text, lower), lower) == NormalizedCompare(text, lower)
  {
    var low := Lowered(NormalizedDetail(text), lower);
    var plain := Replaced(low, IsPunctuation, ' ');
    var n := Simplified(plain);
    var fixed := (c: char) => lower(c) == [c];
    var fine := (c: char) => fixed(c) && !IsPunctuation(c);
    LoweredChars(NormalizedDetail(text), lower);
    ReplacedChars(low, IsPunctuation, ' ', fixed);
    assert All(plain, fine);
    SimplifiedChars(plain, fine);
    SimplifiedIdempotent(plain);
    LineIsDetail(n);
    LowerStays(n, lower);
    NothingToReplace(n, IsPunctuation, ' ');
  }

  // ---- the loops

  method NormalizeDetailText(text: string) returns (normalized: string)
    ensures normalized == NormalizedDetail(text)
  {
    var lines := Split(Replaced(text, IsReturn, '\n'), IsNewline);
    var cleaned := [];
    for i := 0 to |lines|
      invariant cleaned + Cleaned(lines[i..]) == Cleaned(lines)
    {
      var simplified := Simplified(lines[i]);
      assert lines[i..][1..] == lines[i + 1..];
      if simplified != "" {
        cleaned := cleaned + [simplified];
      }
    }
    assert cleaned == Cleaned(lines);
    normalized := Join(cleaned, '\n');
  }

  method NormalizeCompareText(text: string, lower: char -> string) returns (normalized: string)
    ensures normalized == NormalizedCompare(text, lower)
  {
    normalized := NormalizeDetailText(text);
    normalized := Lowered(normalized, lower);
    ghost var lowered := normalized;
    normalized := Replaced(normalized, c => c == '`', ' ');
    normalized := Replaced(normalized, c => c == '"', ' ');
    normalized := Replaced(normalized, c => c == ',', ' ');
    normalized := Replaced(normalized, c => c == '.', ' ');
    FourReplacements(lowered);
    normalized := Simplified(normalized);
  }

  lemma {:induction false} FourReplacements(s: string)
    ensures Replaced(Replaced(Replaced(Replaced(s, c => c == '`', ' '), c => c == '"', ' '), c => c == ',', ' '), c => c == '.', ' ')
            == Replaced(s, IsPunctuation, ' ')
  {
    if s != [] {
      FourReplacements(s[1..]);
    }
  }

  // ---- joining what is worth showing

  function TrimLeft(s: string): string {
    if s != "" && IsSpace(s[0]) then TrimLeft(s[1..]) else s
  }

  function TrimRight(s: string): string {
    if s != "" && IsSpace(s[|s| - 1]) then TrimRight(s[..|s| - 1]) else s
  }

  function Trimmed(s: string): string {
    TrimRight(TrimLeft(s))
  }

  /** `textEquivalent`: the same wording, or one a beginning of the other. */
  predicate Equivalent(left: string, right: string, lower: char -> string) {
    var a, b := NormalizedCompare(left, lower), NormalizedCompare(right, lower);
    a != "" && b != "" && (a == b || b <= a || a <= b)
  }

  type Similarity = (string, string) -> bool

  function SameWording(lower: char -> string): Similarity {
    (a, b) => Equivalent(a, b, lower)
  }

  predicate Known(kept: seq<string>, s: string, same: Similarity) {
    exists i :: 0 <= i < |kept| && same(kept[i], s)
  }

  function Kept(values: seq<string>, same: Similarity): seq<string> {
    if values == [] then []
    else
      var before, s := Kept(values[..|values| - 1], same), Trimmed(values[|values| - 1]);
      if s == "" || Known(before, s, same) then before else before + [s]
  }

  ghost predicate Apart(kept: seq<string>, same: Similarity) {
    forall i, j :: 0 <= i < j < |kept| ==> !same(kept[i], kept[j])
  }

  /** The text is blank, or shown, or like one that is shown. */
  ghost predicate Covered(s: string, kept: seq<string>, same: Similarity) {
    s == "" || s in kept || Known(kept, s, same)
  }

  lemma StillCovered(s: string, kept: seq<string>, more: string, same: Similarity)
    requires Covered(s, kept, same)
    ensures Covered(s, kept + [more], same)
  {
    if s != "" && s !in kept {
      var i :| 0 <= i < |kept| && same(kept[i], s);
      assert same((kept + [more])[i], s);
    }
  }

  lemma {:induction false} KeptApart(values: seq<string>, same: Similarity)
    ensures Apart(Kept(values, same), same)
  {
    if values != [] {
      KeptApart(values[..|values| - 1], same);
    }
  }

  lemma {:induction false} KeptCovers(values: seq<string>, same: Similarity, i: nat)
    requires i < |values|
    ensures Covered(Trimmed(values[i]), Kept(values, same), same)
  {
    var n := |values| - 1;
    if i < n {
      KeptCovers(values[..n], same, i);
      StillCovered(Trimmed(values[i]), Kept(values[..n], same), Trimmed(values[n]), same);
    }
  }

  lemma {:induction false} KeptAreValues(values: seq<string>, same: Similarity, k: string)
    requires k in Kept(values, same)
    ensures k != "" && exists i :: 0 <= i < |values| && Trimmed(values[i]) == k
  {
    var n := |values| - 1;
    if k in Kept(values[..n], same) {
      KeptAreValues(values[..n], same, k);
      var i :| 0 <= i < n && Trimmed(values[..n][i]) == k;
      assert Trimmed(values[i]) == k;
    } else {
      assert Trimmed(values[n]) == k;
    }
  }

  lemma EquivalentIsSymmetric(a: string, b: string, lower: char -> string)
    ensures Equivalent(a, b, lower) == Equivalent(b, a, lower)
  {
  }

  /** No two entries shown are equivalent, in either order; every value that is not blank is shown or equivalent to one
      that is; and every entry is one of the values, trimmed. */
  lemma UniqueAndComplete(values: seq<string>, lower: char -> string)
    ensures var same := SameWording(lower);
            var kept := Kept(values, same);
            && (forall i, j :: 0 <= i < |kept| && 0 <= j < |kept| && i != j ==> !same(kept[i], kept[j]))
            && (forall i :: 0 <= i < |values| ==> Covered(Trimmed(values[i]), kept, same))
            && (forall k :: k in kept ==> k != "" && exists i :: 0 <= i < |values| && Trimmed(values[i]) == k)
  {
    var same := SameWording(lower);
    var kept := Kept(values, same);
    KeptApart(values, same);
    forall i, j | 0 <= i < |kept| && 0 <= j < |kept| && i != j ensures !same(kept[i], kept[j]) {
      EquivalentIsSymmetric(kept[i], kept[j], lower);
    }
    forall i | 0 <= i < |values| ensures Covered(Trimmed(values[i]), kept, same) {
      KeptCovers(values, same, i);
    }
    forall k | k in kept ensures k != "" && exists i :: 0 <= i < |values| && Trimmed(values[i]) == k {
      KeptAreValues(values, same, k);
    }
  }

  method Filtered(values: seq<string>, same: Similarity) returns (filtered: seq<string>)
    ensures filtered == Kept(values, same)
  {
    filtered := [];
    for i := 0 to |values|
      invariant filtered == Kept(values[..i], same)
    {
      var simplified := Trimmed(values[i]);
      assert values[..i + 1][..i] == values[..i];
      if simplified == "" {
        continue;
      }
      var duplicate := false;
      for j := 0 to |filtered|
        invariant !duplicate
        invariant forall k :: 0 <= k < j ==> !same(filtered[k], simplified)
      {
        if same(filtered[j], simplified) {
          duplicate := true;
          break;
        }
      }
      if !duplicate {
        filtered := filtered + [simplified];
      }
    }
    assert values[..|values|] == values;
  }

  method UniqueJoined(values: seq<string>, lower: char -> string) returns (joined: string)
    ensures joined == Join(Kept(values, SameWording(lower)), '\n')
  {
    var filtered := Filtered(values, SameWording(lower));
    joined := Join(filtered, '\n');
  }

  // ---- collapsing a detail text to a few lines

  function Max0(n: int): nat {
    if n < 0 then 0 else n
  }

  function Total(lines: seq<string>): nat {
    if lines == [] then 0 else |lines[0]| + Total(lines[1..])
  }

  /** The lines kept when `count` lines and `used` characters are there already. */
  function Collapsed(lines: seq<string>, maxLines: int, maxChars: int, count: nat, used: nat): seq<string> {
    if lines == [] || count >= maxLines then []
    else if used + |lines[0]| > maxChars then
      var clipped := if maxChars - used > 0 then Trimmed(lines[0][..maxChars - used]) else "";
      if clipped == "" then [] else [clipped]
    else [lines[0]] + Collapsed(lines[1..], maxLines, maxChars, count + 1, used + |lines[0]|)
  }

  predicate EndsWithDots(s: string) {
    |s| >= 3 && s[|s| - 3..] == "..."
  }

  /** The text to show, and whether anything was left out. */
  function CollapsedDetail(text: string, maxLines: int, maxChars: int): (string, bool) {
    var lines := DetailLines(text);
    var kept := Collapsed(lines, maxLines, maxChars, 0, 0);
    var shown := Join(kept, '\n');
    (if kept != lines && shown != "" && !EndsWithDots(shown) then shown + "..." else shown, kept != lines)
  }

  lemma {:induction false} TrimRightIsPrefix(s: string)
    ensures TrimRight(s) <= s
    decreases |s|
  {
    if s != "" && IsSpace(s[|s| - 1]) {
      TrimRightIsPrefix(s[..|s| - 1]);
    }
  }

  lemma ClippedIsPrefix(line: string, n: nat)
    requires line != "" && Simplified(line) == line && n <= |line|
    ensures Trimmed(line[..n]) <= line && |Trimmed(line[..n])| <= n
  {
    SimplifiedStart(line);
    TrimRightIsPrefix(line[..n]);
  }

  /** `kept` is what fits of `lines` into so many lines and characters. */
  ghost predicate Fitted(kept: seq<string>, lines: seq<string>, roomLines: int, roomChars: int) {
    && |kept| <= |lines| && |kept| <= Max0(roomLines) && Total(kept) <= Max0(roomChars)
    && (forall i :: 0 <= i < |kept| ==> kept[i] != "" && kept[i] <= lines[i])
    && (kept == lines <==> lines == [] || (|lines| <= roomLines && Total(lines) <= roomChars))
  }

  lemma FittedNone(lines: seq<string>, roomLines: int, roomChars: int)
    requires lines == [] || roomLines <= 0
    ensures Fitted([], lines, roomLines, roomChars)
  {
  }

  lemma FittedMore(line: string, kept: seq<string>, rest: seq<string>, roomLines: int, roomChars: int)
    requires Fitted(kept, rest, roomLines - 1, roomChars - |line|) && line != "" && roomLines > 0 && |line| <= roomChars
    ensures Fitted([line] + kept, [line] + rest, roomLines, roomChars)
  {
    assert ([line] + kept)[1..] == kept && ([line] + rest)[1..] == rest;
  }

  lemma FittedClip(lines: seq<string>, clipped: string, roomLines: int, roomChars: int)
    requires lines != [] && lines[0] != "" && roomLines > 0 && roomChars < |lines[0]| && clipped <= lines[0] && |clipped| <= Max0(roomChars)
    ensures Fitted(if clipped == "" then [] else [clipped], lines, roomLines, roomChars)
  {
    assert Total(lines) >= |lines[0]|;
    if clipped != "" {
      assert [clipped][1..] == [] && Total([clipped]) == |clipped|;
      assert [clipped][0] != lines[0];
    }
  }

  /** At most `maxLines` lines and `maxChars` characters are kept, each line a prefix of its source line; and all lines
      are kept exactly if they fit. */
  lemma {:induction false} CollapsedFits(lines: seq<string>, maxLines: int, maxChars: int, count: nat, used: nat)
    requires AreClean(lines)
    ensures Fitted(Collapsed(lines, maxLines, maxChars, count, used), lines, maxLines - count, maxChars - used)
    decreases |lines|
  {
    hide Fitted, Trimmed;
    if lines == [] || count >= maxLines {
      FittedNone(lines, maxLines - count, maxChars - used);
    } else {
      var line := lines[0];
      if used + |line| <= maxChars {
        CollapsedFits(lines[1..], maxLines, maxChars, count + 1, used + |line|);
        FittedMore(line, Collapsed(lines[1..], maxLines, maxChars, count + 1, used + |line|), lines[1..], maxLines - count, maxChars - used);
        assert lines == [line] + lines[1..];
      } else if maxChars - used > 0 {
        ClippedIsPrefix(line, maxChars - used);
        FittedClip(lines, Trimmed(line[..maxChars - used]), maxLines - count, maxChars - used);
      } else {
        FittedClip(lines, "", maxLines - count, maxChars - used);
      }
    }
  }

  /** The flag says exactly whether something did not fit; if it is false, the normalised text is shown unchanged. */
  lemma CollapseIsHonest(text: string, maxLines: int, maxChars: int)
    ensures var (shown, truncated) := CollapsedDetail(text, maxLines, maxChars);
            var lines := DetailLines(text);
            && (truncated <==> lines != [] && (|lines| > maxLines || Total(lines) > maxChars))
            && (!truncated ==> shown == NormalizedDetail(text))
            && (truncated ==> shown == "" || EndsWithDots(shown))
  {
    CleanedAreClean(Split(Replaced(text, IsReturn, '\n'), IsNewline));
    CollapsedFits(DetailLines(text), maxLines, maxChars, 0, 0);
    var shown := Join(Collapsed(DetailLines(text), maxLines, maxChars, 0, 0), '\n');
    assert (shown + "...")[|shown|..] == "...";
  }

  lemma CollapsedStep(lines: seq<string>, i: nat, maxLines: int, maxChars: int, used: nat)
    requires i < |lines|
    ensures Collapsed(lines[i..], maxLines, maxChars, i, used) ==
            if i >= maxLines then []
            else if used + |lines[i]| > maxChars then
              var clipped := if maxChars - used > 0 then Trimmed(lines[i][..maxChars - used]) else "";
              if clipped == "" then [] else [clipped]
            else [lines[i]] + Collapsed(lines[i + 1..], maxLines, maxChars, i + 1, used + |lines[i]|)
  {
    assert lines[i..][1..] == lines[i + 1..];
  }

  lemma {:induction false} TrimmedIsShorter(s: string)
    ensures |Trimmed(s)| <= |s|
    decreases |s|
  {
    if s != "" && IsSpace(s[0]) {
      TrimmedIsShorter(s[1..]);
    } else {
      TrimRightIsPrefix(s);
    }
  }

  lemma CollapsedEnd(lines: seq<string>, maxLines: int, maxChars: int, count: nat, used: nat)
    ensures Collapsed(lines[|lines|..], maxLines, maxChars, count, used) == []
  {
  }

  method CollapseLines(lines: seq<string>, maxLines: int, maxChars: int) returns (collapsedLines: seq<string>, truncated: bool)
    ensures collapsedLines == Collapsed(lines, maxLines, maxChars, 0, 0)
    ensures truncated == (collapsedLines != lines)
  {
    hide Collapsed, Trimmed;
    collapsedLines, truncated := [], false;
    var usedChars: nat := 0;
    assert lines[0..] == lines;
    ghost var goal := Collapsed(lines, maxLines, maxChars, 0, 0);
    for i := 0 to |lines|
      invariant collapsedLines == lines[..i] && !truncated
      invariant collapsedLines + Collapsed(lines[i..], maxLines, maxChars, i, usedChars) == goal
    {
      CollapsedStep(lines, i, maxLines, maxChars, usedChars);
      if |collapsedLines| >= maxLines {
        truncated := true;
        break;
      }
      var clipped := lines[i];
      if usedChars + |clipped| > maxChars {
        var remaining := if 0 < maxChars - usedChars then maxChars - usedChars else 0;
        TrimmedIsShorter(clipped[..remaining]);
        clipped := if remaining > 0 then Trimmed(clipped[..remaining]) else "";
        if clipped != "" {
          collapsedLines := collapsedLines + [clipped];
          assert collapsedLines[i] != lines[i];
        }
        truncated := true;
        break;
      }
      collapsedLines := collapsedLines + [clipped];
      usedChars := usedChars + |clipped|;
    }
    CollapsedEnd(lines, maxLines, maxChars, |lines|, usedChars);
    if |lines| > |collapsedLines| {
      truncated := true;
    }
  }

  method CollapseDetailText(text: string, maxLines: int, maxChars: int) returns (shown: string, truncated: bool)
    ensures (shown, truncated) == CollapsedDetail(text, maxLines, maxChars)
  {
    var normalizedText := NormalizeDetailText(text);
    CleanedAreClean(Split(Replaced(text, IsReturn, '\n'), IsNewline));
    DetailLinesOf(DetailLines(text));
    if normalizedText == "" {
      JoinEmpty(DetailLines(text));
      return "", false;
    }
    var lines := Split(normalizedText, IsNewline);
    var collapsedLines;
    collapsedLines, truncated := CollapseLines(lines, maxLines, maxChars);
    shown := Join(collapsedLines, '\n');
    if truncated && shown != "" && !EndsWithDots(shown) {
      shown := shown + "...";
    }
  }

  lemma JoinEmpty(lines: seq<string>)
    requires AreClean(lines) && Join(lines, '\n') == ""
    ensures lines == []
  {
  }
}
