/**
 The text rewriting of the end-to-end helpers: find a commented block in a file, and remove the comment
 prefix from each of its lines. Characters stand for bytes, and the file is its content.
 */
module Uncomment {
  // ---------------------------------------------------------------- library text functions

  predicate OccursAt(text: string, target: string, i: nat) {
    i + |target| <= |text| && text[i..i + |target|] == target
  }

  predicate Occurs(text: string, target: string) {
    exists i :: 0 <= i <= |text| && OccursAt(text, target, i)
  }

  /** strings.Index: the first occurrence. */
  method Index(text: string, target: string) returns (idx: int)
    ensures idx < 0 <==> !Occurs(text, target)
    ensures idx >= 0 ==> OccursAt(text, target, idx) && forall j :: 0 <= j < idx ==> !OccursAt(text, target, j)
  {
    for i := 0 to |text| + 1
      invariant forall j :: 0 <= j < i ==> !OccursAt(text, target, j)
    {
      if OccursAt(text, target, i) {
        return i;
      }
    }
    return -1;
  }

  function TrimPrefix(s: string, prefix: string): string {
    if prefix <= s then s[|prefix|..] else s
  }

  const MAX_SCAN_TOKEN_SIZE := 65536

  predicate NewlineFree(s: string) { '\n' !in s }

  /** The length of the first line, without its newline. */
  function LineLength(s: string): (n: nat)
    ensures n <= |s| && NewlineFree(s[..n]) && (n < |s| ==> s[n] == '\n')
  {
    if s == "" || s[0] == '\n' then 0
    else
      var n := 1 + LineLength(s[1..]);
      assert s[..n] == [s[0]] + s[1..][..n - 1];
      n
  }

  function DropCR(line: string): string {
    if line != "" && line[|line| - 1] == '\r' then line[..|line| - 1] else line
  }

  /** A line scanner: whether there is another token, the token, and what remains. A line as long as the
      scanner's buffer ends the scan, together with everything after it. */
  datatype Scan = End | Token(text: string, rest: string)

  function ScanLine(s: string): Scan {
    var n := LineLength(s);
    if s == "" || n >= MAX_SCAN_TOKEN_SIZE then End
    else Token(DropCR(s[..n]), if n < |s| then s[n + 1..] else "")
  }

  // ---------------------------------------------------------------- the rewriting

  /** The rewritten block: each token without the prefix, newlines in between. */
  function Trimmed(s: string, prefix: string): string
    requires ScanLine(s).Token?
    decreases |s|, 0
  {
    TrimPrefix(ScanLine(s).text, prefix) + Continued(ScanLine(s).rest, prefix)
  }

  function Continued(rest: string, prefix: string): string
    decreases |rest|, 1
  {
    if ScanLine(rest).End? then "" else "\n" + Trimmed(rest, prefix)
  }

  /** The scanner loop. */
  method TrimBlock(target: string, prefix: string) returns (out: string)
    requires ScanLine(target).Token?
    ensures out == Trimmed(target, prefix)
  {
    out := "";
    var token := ScanLine(target);
    while true
      invariant token.Token?
      invariant out + (TrimPrefix(token.text, prefix) + Continued(token.rest, prefix)) == Trimmed(target, prefix)
      decreases |token.rest|
    {
      ghost var (before, word, after) := (out, TrimPrefix(token.text, prefix), Continued(token.rest, prefix));
      out := out + TrimPrefix(token.text, prefix);
      assert before + (word + after) == out + after;
      var next := ScanLine(token.rest);
      if next.End? {
        break;
      }
      ghost var more := Trimmed(token.rest, prefix);
      assert out + ("\n" + more) == out + "\n" + more;
      out := out + "\n";
      token := next;
    }
  }

  datatype Rewrite = TargetMissing | LeftAlone | Rewritten(text: string)

  /** A rewriting as UncommentCode promises it: the first occurrence of the target, and nothing else. */
  ghost predicate Promised(content: string, target: string, prefix: string, r: Rewrite) {
    && (r.TargetMissing? <==> !Occurs(content, target))
    && (r.LeftAlone? <==> Occurs(content, target) && ScanLine(target).End?)
    && (r.Rewritten? ==> exists idx :: RewrittenAt(content, target, prefix, idx, r.text))
  }

  ghost predicate RewrittenAt(content: string, target: string, prefix: string, idx: nat, text: string) {
    && FirstAt(content, target, idx) && ScanLine(target).Token?
    && text == content[..idx] + Trimmed(target, prefix) + content[idx + |target|..]
  }

  /** UncommentCode on the content of a file. */
  method UncommentCode(content: string, target: string, prefix: string) returns (r: Rewrite)
    ensures Promised(content, target, prefix, r)
  {
    var idx := Index(content, target);
    if idx < 0 {
      return TargetMissing;
    }

    var out := content[..idx];
    if ScanLine(target).End? {
      return LeftAlone;
    }
    var block := TrimBlock(target, prefix);
    out := out + block;
    out := out + content[idx + |target|..];
    assert RewrittenAt(content, target, prefix, idx, out);
    return Rewritten(out);
  }

  ghost predicate FirstAt(text: string, target: string, idx: nat) {
    OccursAt(text, target, idx) && forall j :: 0 <= j < idx ==> !OccursAt(text, target, j)
  }

  // ---------------------------------------------------------------- commenting

  function Join(lines: seq<string>): string {
    if lines == [] then "" else if |lines| == 1 then lines[0] else lines[0] + "\n" + Join(lines[1..])
  }

  function Commented(lines: seq<string>, prefix: string): (r: seq<string>)
    ensures |r| == |lines| && forall i :: 0 <= i < |lines| ==> r[i] == prefix + lines[i]
  {
    seq(|lines|, i requires 0 <= i < |lines| => prefix + lines[i])
  }

  ghost predicate Lines(lines: seq<string>) {
    lines != [] && forall i :: 0 <= i < |lines| ==> NewlineFree(lines[i])
  }

  /** What the rewriting makes of one commented line. */
  function Restored(line: string, prefix: string): string {
    TrimPrefix(DropCR(prefix + line), prefix)
  }

  /** A line that the rewriting gives back. */
  predicate Survives(line: string, prefix: string) {
    && |prefix + line| < MAX_SCAN_TOKEN_SIZE
    && (line != "" ==> line[|line| - 1] != '\r')
    && (line == "" && prefix != "" && prefix[|prefix| - 1] == '\r' ==> prefix == "\r")
  }

  lemma RestoredIffSurvives(line: string, prefix: string)
    requires prefix != "" && |prefix + line| < MAX_SCAN_TOKEN_SIZE
    ensures Restored(line, prefix) == line <==> Survives(line, prefix)
  {
    var c := prefix + line;
    if line != "" {
      assert c[|c| - 1] == line[|line| - 1];
      assert c[..|c| - 1] == prefix + line[..|line| - 1];
      assert (prefix + line)[|prefix|..] == line;
      assert (prefix + line[..|line| - 1])[|prefix|..] == line[..|line| - 1];
    } else {
      assert c == prefix;
    }
  }

  /** How many lines the scanner gets through. */
  function Scanned(lines: seq<string>, prefix: string): (n: nat)
    ensures n <= |lines|
    ensures n == |lines| <==> forall i :: 0 <= i < |lines| ==> |prefix + lines[i]| < MAX_SCAN_TOKEN_SIZE
  {
    if lines == [] || |prefix + lines[0]| >= MAX_SCAN_TOKEN_SIZE then 0
    else 1 + Scanned(lines[1..], prefix)
  }

  function AllRestored(lines: seq<string>, prefix: string): (r: seq<string>)
    ensures |r| == |lines| && forall i :: 0 <= i < |lines| ==> r[i] == Restored(lines[i], prefix)
  {
    seq(|lines|, i requires 0 <= i < |lines| => Restored(lines[i], prefix))
  }

  lemma {:induction false} FirstLine(line: string, rest: string)
    requires NewlineFree(line)
    ensures LineLength(line + "\n" + rest) == |line| && LineLength(line) == |line|
  {
    if line != "" {
      FirstLine(line[1..], rest);
      assert (line + "\n" + rest)[1..] == line[1..] + "\n" + rest;
    }
  }

  /** The scan of joined lines sees them one by one. */
  lemma ScanJoined(lines: seq<string>)
    requires Lines(lines) && lines[|lines| - 1] != ""
    ensures if |lines[0]| >= MAX_SCAN_TOKEN_SIZE then ScanLine(Join(lines)) == End
            else ScanLine(Join(lines)) == Token(DropCR(lines[0]), Join(lines[1..]))
  {
    var c := Join(lines);
    FirstLine(lines[0], Join(lines[1..]));
    if |lines| == 1 {
      assert c == lines[0] && c[..|c|] == c;
    } else {
      assert c == lines[0] + "\n" + Join(lines[1..]);
      assert c[..|lines[0]|] == lines[0] && c[|lines[0]| + 1..] == Join(lines[1..]);
    }
  }

  lemma ScanCommented(lines: seq<string>, prefix: string)
    requires Lines(lines) && NewlineFree(prefix) && prefix != ""
    ensures var c := Join(Commented(lines, prefix));
      if |prefix + lines[0]| >= MAX_SCAN_TOKEN_SIZE then ScanLine(c) == End
      else ScanLine(c) == Token(DropCR(prefix + lines[0]), Join(Commented(lines[1..], prefix)))
  {
    assert Commented(lines, prefix)[1..] == Commented(lines[1..], prefix);
    ScanJoined(Commented(lines, prefix));
  }

  /** One step of the rewriting: the first line is restored, and the rest follows if the scan goes on. */
  lemma TrimmedStep(lines: seq<string>, prefix: string)
    requires Lines(lines) && NewlineFree(prefix) && prefix != "" && |prefix + lines[0]| < MAX_SCAN_TOKEN_SIZE
    ensures var c, rest := Join(Commented(lines, prefix)), Join(Commented(lines[1..], prefix));
      ScanLine(c).Token? && Trimmed(c, prefix) == Restored(lines[0], prefix) + Continued(rest, prefix)
  {
    ScanCommented(lines, prefix);
  }

  lemma OneLineOnly(lines: seq<string>, prefix: string)
    requires lines != [] && Scanned(lines, prefix) == 1
    ensures Join(AllRestored(lines[..1], prefix)) == Restored(lines[0], prefix)
  {
  }

  lemma {:induction false} TrimmedCommented(lines: seq<string>, prefix: string)
    requires Lines(lines) && NewlineFree(prefix) && prefix != "" && |prefix + lines[0]| < MAX_SCAN_TOKEN_SIZE
    ensures ScanLine(Join(Commented(lines, prefix))).Token?
    ensures Scanned(lines, prefix) > 0
    ensures Trimmed(Join(Commented(lines, prefix)), prefix) == Join(AllRestored(lines[..Scanned(lines, prefix)], prefix))
  {
    TrimmedStep(lines, prefix);
    if |lines| > 1 && |prefix + lines[1]| < MAX_SCAN_TOKEN_SIZE {
      var rest := Join(Commented(lines[1..], prefix));
      TrimmedCommented(lines[1..], prefix);
      TrimmedMore(lines, prefix, Continued(rest, prefix), Trimmed(rest, prefix));
    } else {
      ScanEnds(lines, prefix);
      OneLineOnly(lines, prefix);
    }
  }

  /** The step of TrimmedCommented: the claim for the remaining lines gives it for all. */
  lemma TrimmedMore(lines: seq<string>, prefix: string, continued: string, more: string)
    requires lines != [] && Scanned(lines[1..], prefix) > 0 && |prefix + lines[0]| < MAX_SCAN_TOKEN_SIZE
    requires continued == "\n" + more && more == Join(AllRestored(lines[1..][..Scanned(lines[1..], prefix)], prefix))
    ensures Restored(lines[0], prefix) + continued == Join(AllRestored(lines[..Scanned(lines, prefix)], prefix))
  {
    RestoredTail(lines, prefix);
    Regroup(Restored(lines[0], prefix), more);
  }

  lemma Regroup(line: string, more: string)
    ensures line + ("\n" + more) == line + "\n" + more
  {
  }

  lemma ScanEnds(lines: seq<string>, prefix: string)
    requires Lines(lines) && NewlineFree(prefix) && prefix != "" && |prefix + lines[0]| < MAX_SCAN_TOKEN_SIZE
    requires |lines| > 1 ==> |prefix + lines[1]| >= MAX_SCAN_TOKEN_SIZE
    ensures Continued(Join(Commented(lines[1..], prefix)), prefix) == ""
    ensures Scanned(lines, prefix) == 1
  {
    if |lines| > 1 {
      ScanCommented(lines[1..], prefix);
      assert Scanned(lines[1..], prefix) == 0;
    } else {
      assert Commented(lines[1..], prefix) == [];
    }
  }

  lemma RestoredTail(lines: seq<string>, prefix: string)
    requires |lines| > 1 && Scanned(lines, prefix) > 1
    ensures var n := Scanned(lines, prefix);
      && Scanned(lines[1..], prefix) == n - 1
      && Join(AllRestored(lines[..n], prefix))
         == Restored(lines[0], prefix) + "\n" + Join(AllRestored(lines[1..][..n - 1], prefix))
  {
    var n := Scanned(lines, prefix);
    assert lines[..n][1..] == lines[1..][..n - 1];
    assert AllRestored(lines[..n], prefix)[1..] == AllRestored(lines[1..][..n - 1], prefix);
  }

  lemma HeadOfJoin(a: seq<string>)
    requires Lines(a)
    ensures LineLength(Join(a)) == |a[0]| <= |Join(a)| && Join(a)[..|a[0]|] == a[0]
    ensures |a| > 1 <==> |Join(a)| > |a[0]|
    ensures |a| > 1 ==> Join(a)[|a[0]| + 1..] == Join(a[1..])
  {
    FirstLine(a[0], Join(a[1..]));
  }

  /** A list of lines can be read off its joined text. */
  lemma {:induction false} JoinInjective(a: seq<string>, b: seq<string>)
    requires Lines(a) && Lines(b) && Join(a) == Join(b)
    ensures a == b
  {
    HeadOfJoin(a);
    HeadOfJoin(b);
    if |a| > 1 {
      JoinInjective(a[1..], b[1..]);
      assert a == [a[0]] + a[1..] && b == [b[0]] + b[1..];
    }
  }

  lemma {:induction false} CommentingLengthens(lines: seq<string>, prefix: string)
    requires lines != [] && prefix != ""
    ensures |Join(Commented(lines, prefix))| > |Join(lines)|
  {
    assert Commented(lines, prefix)[1..] == Commented(lines[1..], prefix);
    if |lines| > 1 {
      CommentingLengthens(lines[1..], prefix);
    }
  }

  /** The content of the file after the rewriting. */
  function FileAfter(content: string, r: Rewrite): string {
    if r.Rewritten? then r.text else content
  }

  lemma FirstIsUnique(text: string, target: string, i: nat, j: nat)
    requires FirstAt(text, target, i) && FirstAt(text, target, j)
    ensures i == j
  {
  }

  /** The round trip: uncommenting the first occurrence of a commented block restores the block, and keeps
      every character before and after it, exactly when every line survives: no commented line reaches
      the scanner's limit or ends in a carriage return. */
  lemma {:induction false} RoundTrip(content: string, lines: seq<string>, prefix: string, idx: nat, r: Rewrite)
    requires Lines(lines) && NewlineFree(prefix) && prefix != ""
    requires var target := Join(Commented(lines, prefix));
      FirstAt(content, target, idx) && Promised(content, target, prefix, r)
    ensures var target := Join(Commented(lines, prefix));
      FileAfter(content, r) == content[..idx] + Join(lines) + content[idx + |target|..]
      <==> forall i :: 0 <= i < |lines| ==>
        && |prefix| + |lines[i]| < 65536
        && (lines[i] != "" ==> lines[i][|lines[i]| - 1] != '\r')
        && (lines[i] == "" && prefix[|prefix| - 1] == '\r' ==> prefix == "\r")
  {
    var target := Join(Commented(lines, prefix));
    PromisedText(content, target, prefix, idx, r);
    BlockRestored(lines, prefix, content[..idx], content[idx + |target|..]);
    assert forall i :: 0 <= i < |lines| ==> |prefix + lines[i]| == |prefix| + |lines[i]|;
  }

  lemma BlockRestored(lines: seq<string>, prefix: string, before: string, after: string)
    requires Lines(lines) && NewlineFree(prefix) && prefix != ""
    ensures var target := Join(Commented(lines, prefix));
      var block := if ScanLine(target).End? then target else Trimmed(target, prefix);
      before + block + after == before + Join(lines) + after
      <==> forall i :: 0 <= i < |lines| ==> Survives(lines[i], prefix)
  {
    ScanCommented(lines, prefix);
    if |prefix + lines[0]| >= MAX_SCAN_TOKEN_SIZE {
      assert !Survives(lines[0], prefix);
      CommentingLengthens(lines, prefix);
      Sandwich(before, Join(Commented(lines, prefix)), Join(lines), after);
    } else {
      RewrittenBlock(lines, prefix, before, after);
    }
  }

  /** The file after the rewriting, given where the target first occurs. */
  lemma PromisedText(content: string, target: string, prefix: string, idx: nat, r: Rewrite)
    requires FirstAt(content, target, idx) && Promised(content, target, prefix, r)
    ensures var block := if ScanLine(target).End? then target else Trimmed(target, prefix);
      FileAfter(content, r) == content[..idx] + block + content[idx + |target|..]
  {
    OccurrenceSplits(content, target, idx);
    if r.Rewritten? {
      var i :| RewrittenAt(content, target, prefix, i, r.text);
      RewrittenThere(content, target, prefix, idx, i, r.text);
    }
  }

  lemma OccurrenceSplits(content: string, target: string, idx: nat)
    requires OccursAt(content, target, idx)
    ensures Occurs(content, target)
    ensures content == content[..idx] + target + content[idx + |target|..]
  {
    assert content == content[..idx] + content[idx..idx + |target|] + content[idx + |target|..];
  }

  lemma RewrittenThere(content: string, target: string, prefix: string, idx: nat, i: nat, text: string)
    requires FirstAt(content, target, idx) && RewrittenAt(content, target, prefix, i, text)
    ensures ScanLine(target).Token?
    ensures text == content[..idx] + Trimmed(target, prefix) + content[idx + |target|..]
  {
    FirstIsUnique(content, target, i, idx);
  }

  lemma RewrittenBlock(lines: seq<string>, prefix: string, before: string, after: string)
    requires Lines(lines) && NewlineFree(prefix) && prefix != "" && |prefix + lines[0]| < MAX_SCAN_TOKEN_SIZE
    ensures ScanLine(Join(Commented(lines, prefix))).Token?
    ensures before + Trimmed(Join(Commented(lines, prefix)), prefix) + after == before + Join(lines) + after
       <==> forall i :: 0 <= i < |lines| ==> Survives(lines[i], prefix)
  {
    TrimmedCommented(lines, prefix);
    RestoredBlock(lines, prefix);
    Sandwich(before, Trimmed(Join(Commented(lines, prefix)), prefix), Join(lines), after);
  }

  lemma Sandwich(before: string, a: string, b: string, after: string)
    ensures before + a + after == before + b + after <==> a == b
  {
    if before + a + after == before + b + after {
      assert |a| == |b|;
      assert a == (before + a + after)[|before|..|before| + |a|];
      assert b == (before + b + after)[|before|..|before| + |b|];
    }
  }

  lemma RestoredBlock(lines: seq<string>, prefix: string)
    requires Lines(lines) && NewlineFree(prefix) && prefix != "" && |prefix + lines[0]| < MAX_SCAN_TOKEN_SIZE
    ensures Join(AllRestored(lines[..Scanned(lines, prefix)], prefix)) == Join(lines)
       <==> forall i :: 0 <= i < |lines| ==> Survives(lines[i], prefix)
  {
    var n := Scanned(lines, prefix);
    var out := AllRestored(lines[..n], prefix);
    forall i | 0 <= i < n ensures NewlineFree(out[i]) {
      assert forall ch :: ch in out[i] ==> ch in prefix + lines[i];
    }
    if Join(out) == Join(lines) {
      JoinInjective(out, lines);
    }
    forall i | 0 <= i < |lines| && n == |lines|
      ensures Restored(lines[i], prefix) == lines[i] <==> Survives(lines[i], prefix)
    {
      RestoredIffSurvives(lines[i], prefix);
    }
    if forall i :: 0 <= i < |lines| ==> Survives(lines[i], prefix) {
      assert out == lines;
    }
  }

  // ---------------------------------------------------------------- lines that are not commented

  /** A line that does not begin with the prefix, and that the scanner gives back as it is. */
  predicate Unmarked(line: string, prefix: string) {
    !(prefix <= line) && |line| < 65536 && (line != "" ==> line[|line| - 1] != '\r')
  }

  lemma {:induction false} UnmarkedStay(lines: seq<string>, prefix: string)
    requires Lines(lines) && lines[|lines| - 1] != ""
    requires forall i :: 0 <= i < |lines| ==> Unmarked(lines[i], prefix)
    ensures ScanLine(Join(lines)).Token? && Trimmed(Join(lines), prefix) == Join(lines)
  {
    ScanJoined(lines);
    assert Unmarked(lines[0], prefix);
    if |lines| > 1 {
      UnmarkedStay(lines[1..], prefix);
      Regroup(lines[0], Join(lines[1..]));
    } else {
      assert lines[0] + "" == lines[0];
    }
  }

  /** A block none of whose lines is commented is left as it is, and so is the whole file. */
  lemma {:induction false} UnmarkedUntouched(content: string, lines: seq<string>, prefix: string, idx: nat, r: Rewrite)
    requires Lines(lines) && lines[|lines| - 1] != ""
    requires forall i :: 0 <= i < |lines| ==> Unmarked(lines[i], prefix)
    requires FirstAt(content, Join(lines), idx) && Promised(content, Join(lines), prefix, r)
    ensures FileAfter(content, r) == content
  {
    UnmarkedStay(lines, prefix);
    PromisedText(content, Join(lines), prefix, idx, r);
    OccurrenceSplits(content, Join(lines), idx);
  }
}
