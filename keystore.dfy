/**
 * The key store of utils/files.go: `ImportKeys` opens the key file, splits it
 * into lines the way `bufio.ScanLines` does and keeps, in file order, every
 * line in which the RE2 class `\s` finds no match.
 */
module KeyStore {

  /** The characters RE2's `\s` matches: tab, line feed, form feed, carriage return and space. */
  predicate IsSpace(c: char) {
    c == '\t' || c == '\n' || c == '\U{000C}' || c == '\r' || c == ' '
  }

  /** `spaceRegex.MatchString(s)`: `\s` matches somewhere in `s`. */
  predicate HasSpace(s: string) {
    exists i :: 0 <= i < |s| && IsSpace(s[i])
  }

  // ---------------------------------------------------------------------------
  // bufio.ScanLines

  /** The position of the first line feed in `s`, or `|s|` when there is none. */
  function IndexOfNewline(s: string): (i: nat)
    ensures i <= |s|
    ensures i < |s| ==> s[i] == '\n'
  {
    if s == [] || s[0] == '\n' then 0 else 1 + IndexOfNewline(s[1..])
  }

  /** No line feed comes before `IndexOfNewline(s)`: it is the first one. */
  lemma {:induction false} IndexOfNewlineIsFirst(s: string)
    ensures forall j :: 0 <= j < IndexOfNewline(s) ==> s[j] != '\n'
    decreases |s|
  {
    if s != [] && s[0] != '\n' {
      IndexOfNewlineIsFirst(s[1..]);
      forall j | 0 < j < IndexOfNewline(s)
        ensures s[j] != '\n'
      {
        assert s[j] == s[1..][j - 1];
      }
    }
  }

  /** ScanLines strips one carriage return from the end of each line. */
  function DropCR(line: string): string {
    if |line| > 0 && line[|line| - 1] == '\r' then line[..|line| - 1] else line
  }

  /**
   * The tokens `bufio.ScanLines` produces: the text is cut at every line feed,
   * a final line without a line feed is a token of its own when it is not
   * empty, and no empty token follows a final line feed.
   */
  function Lines(s: string): seq<string>
    decreases |s|
  {
    if s == [] then []
    else
      var i := IndexOfNewline(s);
      if i == |s| then [DropCR(s)] else [DropCR(s[..i])] + Lines(s[i + 1..])
  }

  /** The text a writer produces by ending every line with `eol`. */
  function Joined(lines: seq<string>, eol: string): string {
    if lines == [] then [] else lines[0] + eol + Joined(lines[1..], eol)
  }

  lemma {:induction false} IndexOfNewlineAfter(a: string, b: string)
    requires forall j :: 0 <= j < |a| ==> a[j] != '\n'
    ensures IndexOfNewline(a + b) == |a| + IndexOfNewline(b)
  {
    if a != [] {
      assert (a + b)[0] == a[0] != '\n';
      assert (a + b)[1..] == a[1..] + b;
      IndexOfNewlineAfter(a[1..], b);
    } else {
      assert a + b == b;
    }
  }

  /** No token contains a line feed. */
  lemma {:induction false} LinesHaveNoNewline(s: string)
    ensures forall l :: l in Lines(s) ==> '\n' !in l
    decreases |s|
  {
    if s != [] {
      var i := IndexOfNewline(s);
      IndexOfNewlineIsFirst(s);
      var head := if i < |s| then s[..i] else s;
      assert '\n' !in head;
      DropCRInside(head);
      if i < |s| {
        LinesHaveNoNewline(s[i + 1..]);
        NoNewlineCons(DropCR(head), Lines(s[i + 1..]));
      } else {
        NoNewlineCons(DropCR(head), []);
      }
    }
  }

  lemma NoNewlineCons(head: string, rest: seq<string>)
    requires '\n' !in head && forall l :: l in rest ==> '\n' !in l
    ensures forall l :: l in [head] + rest ==> '\n' !in l
  {
  }

  /** Dropping a carriage return adds no character. */
  lemma DropCRInside(line: string)
    ensures forall c :: c in DropCR(line) ==> c in line
  {
  }

  /** A line without line feeds, then a line feed: one token, then the tokens of what follows. */
  lemma LinesCons(body: string, tail: string)
    requires forall j :: 0 <= j < |body| ==> body[j] != '\n'
    ensures Lines(body + "\n" + tail) == [DropCR(body)] + Lines(tail)
  {
    var s := body + "\n" + tail;
    assert ("\n" + tail)[0] == '\n';
    IndexOfNewlineAfter(body, "\n" + tail);
    assert s == body + ("\n" + tail);
    assert IndexOfNewline(s) == |body| < |s|;
    assert s[..|body|] == body;
    assert s[|body| + 1..] == tail;
    assert Lines(s) == [DropCR(s[..|body|])] + Lines(s[|body| + 1..]);
  }

  /** A line a writer can end with `eol` so that it reads back unchanged. */
  predicate Writable(line: string, eol: string) {
    '\n' !in line && (eol == "\n" ==> DropCR(line) == line)
  }

  /**
   * Splitting what a writer produced gives back its lines, with `\n` or
   * `\r\n` line ends, and a last unterminated line is a token only when it
   * is not empty (no phantom empty line after a final line feed).
   */
  lemma {:induction false} LinesOfJoined(lines: seq<string>, eol: string, last: string)
    requires eol == "\n" || eol == "\r\n"
    requires forall k :: 0 <= k < |lines| ==> Writable(lines[k], eol)
    requires '\n' !in last && DropCR(last) == last
    ensures Lines(Joined(lines, eol) + last) == lines + (if last == [] then [] else [last])
    decreases |lines|
  {
    if lines == [] {
      assert Joined(lines, eol) + last == last;
      LinesOfLast(last);
    } else {
      LinesOfJoinedCons(lines, eol, last);
      LinesOfJoined(lines[1..], eol, last);
      HeadAppend(lines, if last == [] then [] else [last]);
    }
  }

  lemma HeadAppend<T>(s: seq<T>, t: seq<T>)
    requires s != []
    ensures [s[0]] + (s[1..] + t) == s + t
  {
    assert s == [s[0]] + s[1..];
  }

  /** A last line without a line feed is one token, or none when it is empty. */
  lemma LinesOfLast(last: string)
    requires '\n' !in last && DropCR(last) == last
    ensures Lines(last) == if last == [] then [] else [last]
  {
    assert forall j :: 0 <= j < |last| ==> last[j] in last;
    IndexOfNewlineAfter(last, []);
    assert last + [] == last;
  }

  /** The first written line comes back as the first token. */
  lemma LinesOfJoinedCons(lines: seq<string>, eol: string, last: string)
    requires eol == "\n" || eol == "\r\n"
    requires lines != [] && Writable(lines[0], eol)
    ensures Lines(Joined(lines, eol) + last) == [lines[0]] + Lines(Joined(lines[1..], eol) + last)
  {
    var l0, tail := lines[0], Joined(lines[1..], eol) + last;
    var body := if eol == "\n" then l0 else l0 + "\r";
    JoinedCons(lines, eol, last, body);
    assert forall j :: 0 <= j < |l0| ==> l0[j] in l0;
    LinesCons(body, tail);
    assert DropCR(body) == l0;
  }

  lemma JoinedCons(lines: seq<string>, eol: string, last: string, body: string)
    requires lines != [] && (eol == "\n" || eol == "\r\n")
    requires body == if eol == "\n" then lines[0] else lines[0] + "\r"
    ensures Joined(lines, eol) + last == body + "\n" + (Joined(lines[1..], eol) + last)
  {
    assert eol == if eol == "\n" then "\n" else "\r" + "\n";
  }

  // ---------------------------------------------------------------------------
  // The whitespace filter

  /** The lines `ImportKeys` keeps, in file order. */
  function Filter(lines: seq<string>): seq<string> {
    if lines == [] then []
    else (if HasSpace(lines[0]) then [] else [lines[0]]) + Filter(lines[1..])
  }

  lemma FilterCons(line: string, lines: seq<string>)
    ensures Filter([line] + lines) == (if HasSpace(line) then [] else [line]) + Filter(lines)
  {
    assert ([line] + lines)[0] == line && ([line] + lines)[1..] == lines;
  }

  /** `a` is `b` with some elements left out and the rest in their order. */
  predicate IsSubsequence(a: seq<string>, b: seq<string>)
    decreases |b|
  {
    if a == [] then true
    else if b == [] then false
    else (a[0] == b[0] && IsSubsequence(a[1..], b[1..])) || IsSubsequence(a, b[1..])
  }

  /** No returned key contains tab, line feed, form feed, carriage return or space. */
  lemma {:induction false} FilterKeysHaveNoSpace(lines: seq<string>)
    ensures forall k :: k in Filter(lines) ==> !HasSpace(k)
  {
    if lines != [] {
      FilterKeysHaveNoSpace(lines[1..]);
    }
  }

  /** A string is a key exactly when it is a line and `\s` does not match it. */
  lemma {:induction false} FilterMembership(lines: seq<string>, x: string)
    ensures x in Filter(lines) <==> x in lines && !HasSpace(x)
  {
    if lines != [] {
      FilterMembership(lines[1..], x);
      assert lines == [lines[0]] + lines[1..];
    }
  }

  /** Keys come in file order: the result is a subsequence of the lines. */
  lemma {:induction false} FilterIsSubsequence(lines: seq<string>)
    ensures IsSubsequence(Filter(lines), lines)
  {
    if lines != [] {
      FilterIsSubsequence(lines[1..]);
      if HasSpace(lines[0]) {
        assert Filter(lines) == Filter(lines[1..]);
        SubsequenceSkip(Filter(lines[1..]), lines);
      } else {
        assert Filter(lines)[1..] == Filter(lines[1..]);
      }
    }
  }

  lemma {:induction false} SubsequenceSkip(a: seq<string>, b: seq<string>)
    requires b != [] && IsSubsequence(a, b[1..])
    ensures IsSubsequence(a, b)
  {
  }

  /**
   * There is no deduplication and nothing is altered: every line free of
   * whitespace occurs among the keys exactly as often as among the lines.
   */
  lemma {:induction false} FilterMultiplicity(lines: seq<string>, x: string)
    ensures multiset(Filter(lines))[x] == if HasSpace(x) then 0 else multiset(lines)[x]
  {
    if lines != [] {
      FilterMultiplicity(lines[1..], x);
      assert lines == [lines[0]] + lines[1..];
    }
  }

  /** Filtering the keys again changes nothing. */
  lemma {:induction false} FilterIdempotent(lines: seq<string>)
    ensures Filter(Filter(lines)) == Filter(lines)
  {
    if lines != [] {
      FilterIdempotent(lines[1..]);
      if HasSpace(lines[0]) {
        assert Filter(lines) == Filter(lines[1..]);
      } else {
        var f := Filter(lines);
        assert f == [lines[0]] + Filter(lines[1..]);
        assert f[0] == lines[0] && f[1..] == Filter(lines[1..]);
        assert Filter(f) == [f[0]] + Filter(f[1..]);
      }
    }
  }

  // ---------------------------------------------------------------------------
  // ImportKeys

  /** Path to contents of every file that opens; a path that is absent fails to open. */
  type FileSystem = map<string, string>

  /** The result of `ImportKeys`: the key list, or the error from `os.Open` with no keys. */
  datatype KeyLoad = Keys(keys: seq<string>) | OpenError

  /** What `ImportKeys(path)` returns. */
  function LoadKeys(fs: FileSystem, path: string): KeyLoad {
    if path in fs then Keys(Filter(Lines(fs[path]))) else OpenError
  }

  /**
   * A key file with a blank line, a line holding a space, a CRLF line end
   * and a repeated key: the blank line is the key `""`, the line with the
   * space is dropped, the carriage return is stripped and both copies of
   * the repeated key stay.
   */
  lemma SampleKeyFile()
    ensures LoadKeys(map["keys.txt" := "abc123\n\ndef 456\r\nabc123\n"], "keys.txt")
         == Keys(["abc123", "", "abc123"])
  {
    SampleText();
    var key, odd := "abc123", "def 456\r";
    assert forall j :: 0 <= j < |key| ==> key[j] != '\n';
    assert forall j :: 0 <= j < |odd| ==> odd[j] != '\n';
    SampleLines(key, odd);
    assert DropCR("def 456\r") == "def 456";
    SampleFilter();
  }

  lemma SampleText()
    ensures "abc123\n\ndef 456\r\nabc123\n"
         == "abc123" + "\n" + ("\n" + ("def 456\r" + "\n" + ("abc123" + "\n")))
  {
  }

  lemma SampleLines(key: string, odd: string)
    requires forall j :: 0 <= j < |key| ==> key[j] != '\n'
    requires forall j :: 0 <= j < |odd| ==> odd[j] != '\n'
    requires DropCR(key) == key
    ensures Lines(key + "\n" + ("\n" + (odd + "\n" + (key + "\n")))) == [key, "", DropCR(odd), key]
  {
    var t2 := odd + "\n" + (key + "\n");
    var t1 := "\n" + t2;
    assert Lines(t2) == [DropCR(odd), key] by {
      LinesTwo(odd, key);
    }
    assert Lines(t1) == [""] + Lines(t2) by {
      LinesBlank(t2);
    }
    assert Lines(key + "\n" + t1) == [key] + Lines(t1) by {
      LinesCons(key, t1);
    }
    PrependTwo(key, "", [DropCR(odd), key]);
  }

  lemma PrependTwo<T>(a: T, b: T, rest: seq<T>)
    ensures [a] + ([b] + rest) == [a, b] + rest
  {
  }

  lemma LinesTwo(a: string, b: string)
    requires forall j :: 0 <= j < |a| ==> a[j] != '\n'
    requires forall j :: 0 <= j < |b| ==> b[j] != '\n'
    ensures Lines(a + "\n" + (b + "\n")) == [DropCR(a), DropCR(b)]
  {
    LinesCons(b, []);
    assert b + "\n" + [] == b + "\n";
    LinesCons(a, b + "\n");
  }

  lemma LinesBlank(tail: string)
    ensures Lines("\n" + tail) == [""] + Lines(tail)
  {
    LinesCons([], tail);
    assert [] + "\n" + tail == "\n" + tail;
  }

  /** Two clean keys, one per line: both are kept, in order. */
  lemma TwoKeyFile(a: string, b: string)
    requires forall j :: 0 <= j < |a| ==> a[j] != '\n' && !IsSpace(a[j])
    requires forall j :: 0 <= j < |b| ==> b[j] != '\n' && !IsSpace(b[j])
    ensures Filter(Lines(a + "\n" + (b + "\n"))) == [a, b]
  {
    LinesTwo(a, b);
    if |a| > 0 { assert !IsSpace(a[|a| - 1]); }
    if |b| > 0 { assert !IsSpace(b[|b| - 1]); }
    assert DropCR(a) == a && DropCR(b) == b;
    assert !HasSpace(a) && !HasSpace(b);
    assert Filter([b]) == [b];
    assert [a, b][1..] == [b];
    assert Filter([a, b]) == [a] + Filter([b]);
  }

  lemma TwoKeyText()
    ensures "abc123\ndef456\n" == "abc123" + "\n" + ("def456" + "\n")
  {
  }

  lemma SampleFilter()
    ensures Filter(["abc123", "", "def 456", "abc123"]) == ["abc123", "", "abc123"]
  {
    var key := "abc123";
    assert IsSpace("def 456"[3]);
    assert !HasSpace(key) by {
      forall i | 0 <= i < |key| ensures !IsSpace(key[i]) { }
    }
  }

  /** A `bufio.Scanner` set to `bufio.ScanLines`, over an in-memory text. */
  class LineScanner {
    var rest: string   // the text not yet scanned
    var token: string  // the line the last successful `Scan` produced

    constructor (text: string)
      ensures rest == text && token == []
    {
      rest := text;
      token := [];
    }

    /** Advances to the next line; false once the text is used up. */
    method Scan() returns (more: bool)
      modifies this
      ensures more <==> old(rest) != []
      ensures more ==> Lines(old(rest)) == [token] + Lines(rest) && |rest| < |old(rest)|
      ensures !more ==> rest == [] && token == old(token)
    {
      var text := rest;
      if text == [] {
        return false;
      }
      var i := 0;
      while i < |text| && text[i] != '\n'
        invariant 0 <= i <= |text|
        invariant i + IndexOfNewline(text[i..]) == IndexOfNewline(text)
      {
        assert text[i..][1..] == text[i + 1..];
        i := i + 1;
      }
      if i == |text| {
        token, rest := DropCR(text), [];
      } else {
        token, rest := DropCR(text[..i]), text[i + 1..];
      }
      more := true;
    }
  }

  /** `ImportKeys(path)`: reads the key file and keeps the lines free of whitespace. */
  method ImportKeys(fs: FileSystem, path: string) returns (r: KeyLoad)
    ensures path !in fs ==> r == OpenError
    ensures path in fs ==> r == Keys(Filter(Lines(fs[path])))
  {
    if path !in fs {
      return OpenError;
    }
    var scanner := new LineScanner(fs[path]);
    var keys: seq<string> := [];
    while true
      invariant keys + Filter(Lines(scanner.rest)) == Filter(Lines(fs[path]))
      decreases |scanner.rest|
    {
      ghost var before := scanner.rest;
      var more := scanner.Scan();
      if !more {
        break;
      }
      var key := scanner.token;
      FilterCons(key, Lines(scanner.rest));
      assert Filter(Lines(before)) == (if HasSpace(key) then [] else [key]) + Filter(Lines(scanner.rest));
      if !HasSpace(key) {
        assert keys + ([key] + Filter(Lines(scanner.rest))) == (keys + [key]) + Filter(Lines(scanner.rest));
        keys := keys + [key];
      } else {
        assert [] + Filter(Lines(scanner.rest)) == Filter(Lines(scanner.rest));
      }
    }
    return Keys(keys);
  }
}
