// Pairing codes (internal/protocol/codes.go): words joined by hyphens, and the
// recogniser that splits at hyphens and looks every part up.
module Codes {
  import opened Options

  const Hyphen: char := '-'

  // ---- strings.Join and strings.Split with a one-character separator ------

  function Join(parts: seq<string>, sep: char): string {
    if parts == [] then ""
    else if |parts| == 1 then parts[0]
    else parts[0] + [sep] + Join(parts[1..], sep)
  }

  function Split(s: string, sep: char): (parts: seq<string>)
    ensures |parts| > 0
  {
    if s == "" then [""]
    else
      Push(s[0], Split(s[1..], sep), sep)
  }

  // One more character in front of a split text.
  function Push(ch: char, parts: seq<string>, sep: char): (r: seq<string>)
    requires |parts| > 0
    ensures |r| > 0
  {
    if ch == sep then [""] + parts else [[ch] + parts[0]] + parts[1..]
  }

  ghost predicate Free(parts: seq<string>, sep: char) {
    forall p :: p in parts ==> sep !in p
  }

  // Splitting loses nothing.
  lemma {:induction false} JoinSplit(s: string, sep: char)
    ensures Join(Split(s, sep), sep) == s
  {
    if s != "" {
      var rest := Split(s[1..], sep);
      JoinSplit(s[1..], sep);
      if s[0] == sep {
        assert ([""] + rest)[1..] == rest;
      } else if |rest| > 1 {
        assert ([[s[0]] + rest[0]] + rest[1..])[1..] == rest[1..];
      }
    }
  }

  lemma {:induction false} SplitIsFree(s: string, sep: char)
    ensures Free(Split(s, sep), sep)
  {
    if s != "" {
      SplitIsFree(s[1..], sep);
    }
  }

  // A part without the separator is split off whole.
  lemma {:induction false} SplitFirst(p: string, rest: string, sep: char)
    requires sep !in p
    ensures Split(p, sep) == [p]
    ensures Split(p + [sep] + rest, sep) == [p] + Split(rest, sep)
  {
    if p == "" {
      assert p + [sep] + rest == [sep] + rest;
      assert ([sep] + rest)[1..] == rest;
    } else {
      SplitFirst(p[1..], rest, sep);
      assert (p + [sep] + rest)[1..] == p[1..] + [sep] + rest;
      assert p == [p[0]] + p[1..];
    }
  }

  // Joining is undone by splitting when no part contains the separator.
  lemma {:induction false} SplitJoin(parts: seq<string>, sep: char)
    requires parts != [] && Free(parts, sep)
    ensures Split(Join(parts, sep), sep) == parts
  {
    SplitFirst(parts[0], Join(parts[1..], sep), sep);
    if |parts| > 1 {
      SplitJoin(parts[1..], sep);
      assert parts == [parts[0]] + parts[1..];
    }
  }

  // ---- The wordlist --------------------------------------------------------

  // unicode.IsSpace
  predicate IsSpace(ch: char) {
    || '\t' <= ch <= '\r' || ch == ' ' || ch == '\U{85}' || ch == '\U{A0}' || ch == '\U{1680}'
    || '\U{2000}' <= ch <= '\U{200A}' || ch == '\U{2028}' || ch == '\U{2029}' || ch == '\U{202F}'
    || ch == '\U{205F}' || ch == '\U{3000}'
  }

  function TrimLeft(s: string): string {
    if s != "" && IsSpace(s[0]) then TrimLeft(s[1..]) else s
  }

  function TrimSpace(s: string): string {
    var t := TrimLeft(s);
    TrimRight(t)
  }

  function TrimRight(s: string): string {
    if s != "" && IsSpace(s[|s| - 1]) then TrimRight(s[..|s| - 1]) else s
  }

  ghost predicate AllSpace(s: string) {
    forall i :: 0 <= i < |s| ==> IsSpace(s[i])
  }

  ghost predicate Trimmed(s: string) {
    s != "" ==> !IsSpace(s[0]) && !IsSpace(s[|s| - 1])
  }

  // Only white space is trimmed, and all of it: the one text without outer space
  // that white space surrounds.
  lemma TrimSpaceIff(s: string, t: string)
    ensures t == TrimSpace(s) <==>
      Trimmed(t) && exists a, b :: AllSpace(a) && AllSpace(b) && s == a + t + b
  {
    var a, left := LeftTrimmed(s);
    var b := RightTrimmed(left);
    assert s == a + TrimSpace(s) + b;
    if Trimmed(t) && exists a, b :: AllSpace(a) && AllSpace(b) && s == a + t + b {
      var a', b' :| AllSpace(a') && AllSpace(b') && s == a' + t + b';
      OneTrimmed(s, a, TrimSpace(s), b, a', t, b');
    }
  }

  lemma {:induction false} LeftTrimmed(s: string) returns (a: string, t: string)
    ensures t == TrimLeft(s) && AllSpace(a) && s == a + t && (t != "" ==> !IsSpace(t[0]))
    decreases |s|
  {
    if s != "" && IsSpace(s[0]) {
      a, t := LeftTrimmed(s[1..]);
      a := [s[0]] + a;
    } else {
      a, t := "", s;
    }
  }

  lemma {:induction false} RightTrimmed(s: string) returns (b: string)
    ensures AllSpace(b) && s == TrimRight(s) + b
    ensures TrimRight(s) != "" ==> TrimRight(s)[0] == s[0] && !IsSpace(TrimRight(s)[|TrimRight(s)| - 1])
    decreases |s|
  {
    if s != "" && IsSpace(s[|s| - 1]) {
      b := RightTrimmed(s[..|s| - 1]);
      b := b + [s[|s| - 1]];
    } else {
      b := "";
    }
  }

  lemma OneTrimmed(s: string, a: string, t: string, b: string, a': string, t': string, b': string)
    requires AllSpace(a) && AllSpace(b) && AllSpace(a') && AllSpace(b')
    requires Trimmed(t) && Trimmed(t') && s == a + t + b && s == a' + t' + b'
    ensures t == t'
  {
    BlankIff(a, t, b);
    BlankIff(a', t', b');
    if t != "" && t' != "" {
      FirstText(s, a, t + b);
      FirstText(s, a', t' + b');
      LastText(s, a + t, b);
      LastText(s, a' + t', b');
      assert s[..|a|] == a && s[..|a'|] == a';
      assert s[|a + t|..] == b && s[|a' + t'|..] == b';
      assert t == s[|a|..|a + t|] && t' == s[|a'|..|a' + t'|];
    }
  }

  // No longer prefix is all white space.
  lemma FirstText(s: string, a: string, u: string)
    requires s == a + u && u != "" && !IsSpace(u[0])
    ensures forall i :: |a| < i <= |s| ==> !AllSpace(s[..i])
  {
    forall i | |a| < i <= |s| ensures !AllSpace(s[..i]) {
      assert s[..i][|a|] == u[0];
    }
  }

  lemma LastText(s: string, u: string, b: string)
    requires s == u + b && u != "" && !IsSpace(u[|u| - 1])
    ensures forall i :: 0 <= i < |u| ==> !AllSpace(s[i..])
  {
    forall i | 0 <= i < |u| ensures !AllSpace(s[i..]) {
      assert s[i..][|u| - 1 - i] == u[|u| - 1];
    }
  }

  lemma BlankIff(a: string, t: string, b: string)
    requires AllSpace(a) && AllSpace(b) && Trimmed(t)
    ensures AllSpace(a + t + b) <==> t == ""
  {
    if t != "" {
      assert (a + t + b)[|a|] == t[0];
    }
  }

  // The words of a list of lines: trimmed, blank ones dropped, in order.
  function WordsOf(lines: seq<string>): seq<string> {
    if lines == [] then []
    else
      var w := TrimSpace(lines[|lines| - 1]);
      WordsOf(lines[..|lines| - 1]) + if w == "" then [] else [w]
  }

  // `at` says which line each word is: no line that is not blank is missing.
  ghost predicate WordsAt(words: seq<string>, lines: seq<string>, at: seq<nat>) {
    && |at| == |words|
    && (forall k :: 0 <= k < |at| ==>
          at[k] < |lines| && words[k] == TrimSpace(lines[at[k]]) && words[k] != "")
    && (forall k, m :: 0 <= k < m < |at| ==> at[k] < at[m])
    && (forall i :: 0 <= i < |lines| && TrimSpace(lines[i]) != "" ==> i in at)
  }

  // In order, none left out and nothing else.
  lemma {:induction false} WordsOfAt(lines: seq<string>) returns (at: seq<nat>)
    ensures WordsAt(WordsOf(lines), lines, at)
    decreases |lines|
  {
    at := [];
    if lines != [] {
      var front, line := lines[..|lines| - 1], lines[|lines| - 1];
      at := WordsOfAt(front);
      WordsAtOneMore(WordsOf(front), front, at, line, TrimSpace(line));
      assert front + [line] == lines;
      at := if TrimSpace(line) == "" then at else at + [|front|];
    }
  }

  lemma WordsAtOneMore(words: seq<string>, lines: seq<string>, at: seq<nat>, line: string, w: string)
    requires WordsAt(words, lines, at) && w == TrimSpace(line)
    ensures if w == "" then WordsAt(words, lines + [line], at)
            else WordsAt(words + [w], lines + [line], at + [|lines|])
  {
    var lines' := lines + [line];
    assert forall j :: 0 <= j < |lines| ==> lines'[j] == lines[j];
    assert forall j :: j in at ==> j in at + [|lines|];
  }

  // init
  method ParseWordlist(raw: string) returns (words: seq<string>, wordSet: set<string>)
    ensures words == WordsOf(Split(TrimSpace(raw), '\n'))
    ensures forall w :: w in wordSet <==> w in words
    ensures "" !in wordSet
  {
    var lines := Split(TrimSpace(raw), '\n');
    words, wordSet := [], {};
    for i := 0 to |lines|
      invariant words == WordsOf(lines[..i])
      invariant forall w :: w in wordSet <==> w in words
      invariant "" !in wordSet
    {
      assert lines[..i + 1][..i] == lines[..i];
      var w := TrimSpace(lines[i]);
      if w != "" {
        words := words + [w];
        wordSet := wordSet + {w};
      }
    }
    assert lines[..|lines|] == lines;
  }

  // n random words. `draws` is what the random source will yield, as indices
  // into the list; it may fail at any draw.
  method GenerateCode(words: seq<string>, n: int, draws: nat -> Option<nat>)
    returns (r: Result<string>, ghost picks: seq<string>)
    requires words != [] && forall i :: draws(i).Some? ==> draws(i).value < |words|
    ensures r.Ok? <==> n > 0 && forall i: nat :: i < n ==> draws(i).Some?
    ensures r.Ok? ==> |picks| == n && r.value == Join(picks, Hyphen)
    ensures r.Ok? ==> forall i :: 0 <= i < n ==> draws(i).Some? && picks[i] == words[draws(i).value]
    ensures forall w :: w in picks ==> w in words
  {
    picks := [];
    if n <= 0 {
      return Err("n must be positive"), picks;
    }
    var selected: seq<string> := [];
    while |selected| < n
      invariant |selected| <= n && picks == selected
      invariant forall w :: w in selected ==> w in words
      invariant forall i :: 0 <= i < |selected| ==> draws(i).Some? && selected[i] == words[draws(i).value]
    {
      var idx := draws(|selected|);
      if idx.None? {
        return Err("random source failed"), picks;
      }
      selected := selected + [words[idx.value]];
      picks := selected;
    }
    return Ok(Join(selected, Hyphen)), picks;
  }

  predicate Valid(wordSet: set<string>, code: string) {
    forall p :: p in Split(code, Hyphen) ==> p in wordSet
  }

  method ValidateCode(wordSet: set<string>, code: string) returns (ok: bool)
    ensures ok == Valid(wordSet, code)
  {
    var parts := Split(code, Hyphen);
    for i := 0 to |parts|
      invariant forall k :: 0 <= k < i ==> parts[k] in wordSet
    {
      if parts[i] !in wordSet {
        return false;
      }
    }
    return true;
  }

  // ---- What the recogniser accepts ----------------------------------------

  ghost predicate From(parts: seq<string>, wordSet: set<string>) {
    parts != [] && forall p :: p in parts ==> p in wordSet
  }

  // For any wordlist: exactly the joins of its hyphen-free words.
  lemma ValidIff(wordSet: set<string>, code: string)
    ensures Valid(wordSet, code) <==>
      exists parts :: From(parts, wordSet) && Free(parts, Hyphen) && code == Join(parts, Hyphen)
  {
    if Valid(wordSet, code) {
      JoinSplit(code, Hyphen);
      SplitIsFree(code, Hyphen);
      assert From(Split(code, Hyphen), wordSet);
    }
    if exists parts :: From(parts, wordSet) && Free(parts, Hyphen) && code == Join(parts, Hyphen) {
      var parts :| From(parts, wordSet) && Free(parts, Hyphen) && code == Join(parts, Hyphen);
      SplitJoin(parts, Hyphen);
    }
  }

  ghost predicate HyphenFree(wordSet: set<string>) {
    forall w :: w in wordSet ==> Hyphen !in w
  }

  // For a hyphen-free list: exactly the joins of its words, each in one way.
  lemma ValidIffFromHyphenFree(wordSet: set<string>, code: string)
    requires HyphenFree(wordSet)
    ensures Valid(wordSet, code) <==> exists parts :: From(parts, wordSet) && code == Join(parts, Hyphen)
  {
    ValidIff(wordSet, code);
    if exists parts :: From(parts, wordSet) && code == Join(parts, Hyphen) {
      var parts :| From(parts, wordSet) && code == Join(parts, Hyphen);
      assert Free(parts, Hyphen);
    }
  }

  lemma CodesAreDistinct(wordSet: set<string>, a: seq<string>, b: seq<string>)
    requires HyphenFree(wordSet) && From(a, wordSet) && From(b, wordSet)
    requires Join(a, Hyphen) == Join(b, Hyphen)
    ensures a == b
  {
    SplitJoin(a, Hyphen);
    SplitJoin(b, Hyphen);
  }

  // ---- Which wordlists generate only valid codes --------------------------

  ghost predicate ClosedUnderParts(wordSet: set<string>) {
    forall w, p :: w in wordSet && p in Split(w, Hyphen) ==> p in wordSet
  }

  // Splitting at a separator splits each side.
  lemma {:induction false} SplitConcat(s: string, t: string, sep: char)
    ensures Split(s + [sep] + t, sep) == Split(s, sep) + Split(t, sep)
  {
    var whole := s + [sep] + t;
    if s == "" {
      assert whole == [sep] + t && whole[1..] == t;
    } else {
      SplitConcat(s[1..], t, sep);
      assert whole[1..] == s[1..] + [sep] + t && whole[0] == s[0];
      PushConcat(s[0], Split(s[1..], sep), Split(t, sep), sep);
    }
  }

  lemma PushConcat(ch: char, a: seq<string>, b: seq<string>, sep: char)
    requires |a| > 0
    ensures Push(ch, a + b, sep) == Push(ch, a, sep) + b
  {
  }

  lemma {:induction false} JoinOfClosed(wordSet: set<string>, parts: seq<string>)
    requires ClosedUnderParts(wordSet) && From(parts, wordSet)
    ensures Valid(wordSet, Join(parts, Hyphen))
  {
    if |parts| > 1 {
      JoinOfClosed(wordSet, parts[1..]);
      SplitConcat(parts[0], Join(parts[1..], Hyphen), Hyphen);
    }
  }

  // All codes of n words validate.
  ghost predicate AllValid(wordSet: set<string>, n: nat) {
    forall parts :: |parts| == n && From(parts, wordSet) ==> Valid(wordSet, Join(parts, Hyphen))
  }

  function Copies(w: string, n: nat): seq<string> {
    if n == 0 then [] else [w] + Copies(w, n - 1)
  }

  // A code of n times the same word is split where the word is.
  lemma {:induction false} SplitCopies(w: string, n: nat, p: string)
    requires n > 0 && p in Split(w, Hyphen)
    ensures |Copies(w, n)| == n && (forall x :: x in Copies(w, n) ==> x == w)
    ensures p in Split(Join(Copies(w, n), Hyphen), Hyphen)
  {
    if n == 1 {
      assert Copies(w, 1) == [w];
    } else {
      SplitCopies(w, n - 1, p);
      assert Copies(w, n)[1..] == Copies(w, n - 1);
      SplitConcat(w, Join(Copies(w, n - 1), Hyphen), Hyphen);
    }
  }

  // Every code of n words, for any n > 0, validates iff every hyphen-separated
  // part of every word is itself a word.
  lemma GeneratedCodesValidateIff(wordSet: set<string>, n: nat)
    requires n > 0
    ensures AllValid(wordSet, n) <==> ClosedUnderParts(wordSet)
  {
    if ClosedUnderParts(wordSet) {
      forall parts | |parts| == n && From(parts, wordSet) ensures Valid(wordSet, Join(parts, Hyphen)) {
        JoinOfClosed(wordSet, parts);
      }
    }
    if AllValid(wordSet, n) {
      forall w, p | w in wordSet && p in Split(w, Hyphen) ensures p in wordSet {
        SplitCopies(w, n, p);
        assert From(Copies(w, n), wordSet);
      }
    }
  }

  // The server's codes have four words.
  const CodeWords := 4

  // The shipped list has "drop-down" but not "drop": a code the server draws
  // from it can be refused by that server.
  lemma ShippedListRefusesItsOwn(wordSet: set<string>)
    requires "drop-down" in wordSet && "drop" !in wordSet
    ensures exists parts :: |parts| == CodeWords && From(parts, wordSet) && !Valid(wordSet, Join(parts, Hyphen))
  {
    SplitFirst("drop", "down", Hyphen);
    assert "drop-down" == "drop" + [Hyphen] + "down";
    assert "drop" in Split("drop-down", Hyphen);
    assert !ClosedUnderParts(wordSet);
    GeneratedCodesValidateIff(wordSet, CodeWords);
  }
}
