/** Pulling `ws:<name>` and `agent:<name>` out of a message. */
module Words {
  import opened Basics

  // --- strings, as Go's strings package treats them ---

  /** unicode.IsSpace */
  predicate IsSpace(c: char) {
    var n := c as int;
    9 <= n <= 13 || n in {0x20, 0x85, 0xA0, 0x1680, 0x2028, 0x2029, 0x202F, 0x205F, 0x3000} || 0x2000 <= n <= 0x200A
  }

  /** The twenty-five blanks of Unicode. */
  lemma SpacesAre(c: char)
    ensures IsSpace(c) <==>
              c as int in {0x09, 0x0A, 0x0B, 0x0C, 0x0D, 0x20, 0x85, 0xA0, 0x1680, 0x2000, 0x2001, 0x2002, 0x2003,
                           0x2004, 0x2005, 0x2006, 0x2007, 0x2008, 0x2009, 0x200A, 0x2028, 0x2029, 0x202F, 0x205F,
                             0x3000}
  {
  }

  /** The words of `cur + s`, of which `cur` is the word being read. */
  function FieldsAfter(cur: string, s: string): seq<string>
    decreases |s|
  {
    if s == "" then if cur == "" then [] else [cur]
    else if IsSpace(s[0]) then (if cur == "" then [] else [cur]) + FieldsAfter("", s[1..])
    else FieldsAfter(cur + [s[0]], s[1..])
  }

  function Fields(s: string): seq<string> { FieldsAfter("", s) }

  function Join(ws: seq<string>, sep: string): string {
    if ws == [] then "" else if |ws| == 1 then ws[0] else ws[0] + sep + Join(ws[1..], sep)
  }

  function TrimLeft(s: string, cut: char -> bool): string {
    if s != "" && cut(s[0]) then TrimLeft(s[1..], cut) else s
  }

  function TrimRight(s: string, cut: char -> bool): string {
    if s != "" && cut(s[|s| - 1]) then TrimRight(s[..|s| - 1], cut) else s
  }

  function TrimSpace(s: string): string { TrimRight(TrimLeft(s, IsSpace), IsSpace) }

  /** The punctuation people put around a token. */
  function Bare(s: string): string {
    TrimRight(TrimLeft(s, c => c in "`\"'.,;:"), c => c in "`\"'.,;:")
  }

  /** ASCII letters only. */
  function ToLower(s: string): string {
    seq(|s|, i requires 0 <= i < |s| => if 'A' <= s[i] <= 'Z' then (s[i] as int + 32) as char else s[i])
  }

  // --- the tokens ---

  predicate Carries(word: string, prefix: string) { prefix <= Bare(word) && |Bare(word)| > |prefix| }

  /** The first word that carries the prefix, or the number of words. */
  function FirstIn(ws: seq<string>, prefix: string): (i: nat)
    ensures i <= |ws|
    ensures i < |ws| ==> Carries(ws[i], prefix)
    ensures forall k | 0 <= k < i :: !Carries(ws[k], prefix)
  {
    if ws == [] || Carries(ws[0], prefix) then 0
    else
      var i := FirstIn(ws[1..], prefix);
      assert forall k | 1 <= k < i + 1 :: ws[k] == ws[1..][k - 1];
      i + 1
  }

  function Drop(ws: seq<string>, i: nat): seq<string>
    requires i < |ws|
  {
    ws[..i] + ws[i + 1..]
  }

  function NameOf(word: string, prefix: string): string
    requires Carries(word, prefix)
  {
    Bare(word)[|prefix|..]
  }

  /** The name carried by the first token, and the text without it. */
  function SplitToken(text: string, prefix: string): (string, string) {
    var ws := Fields(text);
    var i := FirstIn(ws, prefix);
    if i < |ws| then (NameOf(ws[i], prefix), Join(Drop(ws, i), " ")) else ("", TrimSpace(text))
  }

  const WS := "ws:"
  const AGENT := "agent:"

  function SplitAgentToken(text: string): (string, string) {
    var (name, rest) := SplitToken(text, AGENT);
    (ToLower(name), rest)
  }

  method SplitWorkspace(text: string) returns (name: string, rest: string)
    ensures (name, rest) == SplitToken(text, WS)
  {
    var fields := Fields(text);
    for i := 0 to |fields|
      invariant forall k | 0 <= k < i :: !Carries(fields[k], WS)
    {
      var f := Bare(fields[i]);
      if !(WS <= f) || |f| == 3 { continue; }
      return f[3..], Join(fields[..i] + fields[i + 1..], " ");
    }
    return "", TrimSpace(text);
  }

  method SplitAgent(text: string) returns (name: string, rest: string)
    ensures (name, rest) == SplitAgentToken(text)
  {
    var fields := Fields(text);
    for i := 0 to |fields|
      invariant forall k | 0 <= k < i :: !Carries(fields[k], AGENT)
    {
      var f := Bare(fields[i]);
      if !(AGENT <= f) || |f| == |AGENT| { continue; }
      return ToLower(f[|AGENT|..]), Join(fields[..i] + fields[i + 1..], " ");
    }
    assert ToLower("") == "";
    return "", TrimSpace(text);
  }

  // --- trimming ---

  predicate Blank(s: string) { forall c | c in s :: IsSpace(c) }

  /** `t` is `s` without the longest runs of cut characters at either end. */
  ghost predicate CutFrom(s: string, t: string, cut: char -> bool, i: nat, k: nat) {
    && i <= k <= |s| && t == s[i..k]
    && (forall n | 0 <= n < i :: cut(s[n])) && (forall n | k <= n < |s| :: cut(s[n]))
    && (t != "" ==> !cut(t[0]) && !cut(t[|t| - 1]))
  }

  lemma {:induction false} LeftCut(s: string, cut: char -> bool) returns (i: nat)
    ensures i <= |s| && TrimLeft(s, cut) == s[i..] && forall n | 0 <= n < i :: cut(s[n])
    ensures TrimLeft(s, cut) != "" ==> !cut(TrimLeft(s, cut)[0])
    decreases |s|
  {
    i := 0;
    if s != "" && cut(s[0]) {
      var n := LeftCut(s[1..], cut);
      i := n + 1;
      assert forall x | 1 <= x < i :: s[x] == s[1..][x - 1];
    }
  }

  lemma {:induction false} RightCut(s: string, cut: char -> bool) returns (k: nat)
    ensures k <= |s| && TrimRight(s, cut) == s[..k] && forall n | k <= n < |s| :: cut(s[n])
    ensures k > 0 ==> !cut(s[k - 1])
    decreases |s|
  {
    k := |s|;
    if s != "" && cut(s[|s| - 1]) {
      k := RightCut(s[..|s| - 1], cut);
      assert s[..|s| - 1][..k] == s[..k];
    }
  }

  lemma TrimmedBoth(s: string, cut: char -> bool) returns (i: nat, k: nat)
    ensures CutFrom(s, TrimRight(TrimLeft(s, cut), cut), cut, i, k)
  {
    i := LeftCut(s, cut);
    var n := RightCut(TrimLeft(s, cut), cut);
    k := i + n;
    assert forall x | k <= x < |s| :: s[x] == s[i..][x - i];
  }

  lemma TrimmedIsEmpty(s: string)
    ensures TrimSpace(s) == "" <==> Blank(s)
  {
    var i, k := TrimmedBoth(s, IsSpace);
    assert i < k ==> s[i] in s;
    if TrimSpace(s) == "" {
      forall c | c in s ensures IsSpace(c) {
        var n :| 0 <= n < |s| && s[n] == c;
      }
    }
  }

  /** The seven marks people put around a token. */
  predicate IsMark(c: char) { c == '`' || c == '\"' || c == '\'' || c == '.' || c == ',' || c == ';' || c == ':' }

  /** A word carries a prefix exactly when, between any marks around it, it is
      that prefix followed by a name that ends in no mark; the name is that. */
  lemma CarriesMeans(word: string, prefix: string, name: string)
    requires prefix != "" && !IsMark(prefix[0])
    ensures Carries(word, prefix) && NameOf(word, prefix) == name <==>
              && name != "" && !IsMark(name[|name| - 1])
              && exists i: nat, k: nat :: Peels(word, prefix + name, i, k)
  {
    var i0, k0 := TrimmedBoth(word, c => c in "`\"'.,;:");
    var bare := Bare(word);
    assert i0 < k0 ==> bare[0] == word[i0] && bare[|bare| - 1] == word[k0 - 1];
    assert Peeled(word, bare, i0, k0);
    if Carries(word, prefix) && NameOf(word, prefix) == name {
      assert bare == prefix + name && bare[|bare| - 1] == name[|name| - 1];
      assert word[i0..k0] == prefix + name;
    }
    if name != "" && !IsMark(name[|name| - 1]) {
      forall i: nat, k: nat | Peels(word, prefix + name, i, k) ensures bare == prefix + name {
        assert word[i..k][0] == prefix[0] && word[i..k][k - i - 1] == name[|name| - 1];
        PeeledOnce(word, prefix + name, i, k, bare, i0, k0);
      }
      assert bare == prefix + name ==> prefix <= bare && bare[|prefix|..] == name;
    }
    hide Bare;
  }

  /** `t` is what is left of `s` between marks at either end. */
  ghost predicate Peels(s: string, t: string, i: nat, k: nat) {
    && i <= k <= |s| && s[i..k] == t
    && (forall n | 0 <= n < i :: IsMark(s[n])) && (forall n | k <= n < |s| :: IsMark(s[n]))
  }

  /** … and all of them. */
  ghost predicate Peeled(s: string, t: string, i: nat, k: nat) {
    Peels(s, t, i, k) && (i < k ==> !IsMark(s[i]) && !IsMark(s[k - 1]))
  }

  lemma PeeledOnce(s: string, t: string, i: nat, k: nat, u: string, i': nat, k': nat)
    requires Peeled(s, t, i, k) && Peeled(s, u, i', k') && t != ""
    ensures t == u
  {
    assert i' <= i && k <= k';
    assert i <= i' && k' <= k;
  }

  /** Only the letters A to Z change, each to its small letter. */
  lemma LowerMeans(s: string)
    ensures |ToLower(s)| == |s|
    ensures forall n | 0 <= n < |s| && !('A' <= s[n] <= 'Z') :: ToLower(s)[n] == s[n]
    ensures forall n | 0 <= n < |s| && 'A' <= s[n] <= 'Z' ::
              'a' <= ToLower(s)[n] <= 'z' && ToLower(s)[n] as int - 'a' as int == s[n] as int - 'A' as int
  {
  }

  // --- words ---

  predicate IsWord(w: string) { w != "" && forall c | c in w :: !IsSpace(c) }

  predicate AllWords(ws: seq<string>) { forall w | w in ws :: IsWord(w) }

  lemma {:induction false} FieldsAreWords(cur: string, s: string)
    requires forall c | c in cur :: !IsSpace(c)
    ensures AllWords(FieldsAfter(cur, s))
    decreases |s|
  {
    if s != "" {
      if IsSpace(s[0]) { FieldsAreWords("", s[1..]); } else { FieldsAreWords(cur + [s[0]], s[1..]); }
    }
  }

  lemma {:induction false} ReadWord(cur: string, w: string, rest: string)
    requires forall c | c in w :: !IsSpace(c)
    ensures FieldsAfter(cur, w + rest) == FieldsAfter(cur + w, rest)
    decreases |w|
  {
    if w == "" {
      assert w + rest == rest && cur + w == cur;
    } else {
      assert (w + rest)[0] == w[0] && (w + rest)[1..] == w[1..] + rest;
      ReadWord(cur + [w[0]], w[1..], rest);
      assert cur + [w[0]] + w[1..] == cur + w;
    }
  }

  /** Splitting joined words gives the words back. */
  lemma {:induction false} FieldsJoin(ws: seq<string>)
    requires AllWords(ws)
    ensures Fields(Join(ws, " ")) == ws
    decreases |ws|
  {
    if ws != [] {
      var w, tail := ws[0], ws[1..];
      assert IsWord(w);
      if tail == [] {
        ReadWord("", w, "");
        assert w + "" == w && "" + w == w;
      } else {
        FieldsJoin(tail);
        var rest := " " + Join(tail, " ");
        ReadWord("", w, rest);
        assert w + " " + Join(tail, " ") == w + rest && rest[1..] == Join(tail, " ") && "" + w == w;
      }
    }
  }

  lemma {:induction false} FieldsIgnoreLeft(s: string)
    ensures Fields(TrimLeft(s, IsSpace)) == Fields(s)
    decreases |s|
  {
    if s != "" && IsSpace(s[0]) { FieldsIgnoreLeft(s[1..]); }
  }

  lemma {:induction false} FieldsIgnoreLast(cur: string, s: string, c: char)
    requires IsSpace(c)
    ensures FieldsAfter(cur, s + [c]) == FieldsAfter(cur, s)
    decreases |s|
  {
    if s == "" {
      assert s + [c] == [c] && [c][1..] == "";
    } else {
      assert (s + [c])[0] == s[0] && (s + [c])[1..] == s[1..] + [c];
      if IsSpace(s[0]) { FieldsIgnoreLast("", s[1..], c); } else { FieldsIgnoreLast(cur + [s[0]], s[1..], c); }
    }
  }

  lemma {:induction false} FieldsIgnoreRight(s: string)
    ensures Fields(TrimRight(s, IsSpace)) == Fields(s)
    decreases |s|
  {
    if s != "" && IsSpace(s[|s| - 1]) {
      FieldsIgnoreRight(s[..|s| - 1]);
      FieldsIgnoreLast("", s[..|s| - 1], s[|s| - 1]);
      assert s == s[..|s| - 1] + [s[|s| - 1]];
    }
  }

  lemma FieldsIgnoreTrim(s: string)
    ensures Fields(TrimSpace(s)) == Fields(s)
  {
    FieldsIgnoreLeft(s);
    FieldsIgnoreRight(TrimLeft(s, IsSpace));
  }

  /** Trimming stops at text that neither starts nor ends with a blank. */
  predicate Trimmed(s: string) { s == "" || (!IsSpace(s[0]) && !IsSpace(s[|s| - 1])) }

  lemma {:induction false} LeftStops(s: string)
    ensures var t := TrimLeft(s, IsSpace); t == "" || !IsSpace(t[0])
    decreases |s|
  {
    if s != "" && IsSpace(s[0]) { LeftStops(s[1..]); }
  }

  lemma {:induction false} RightStops(s: string)
    ensures var t := TrimRight(s, IsSpace); t <= s && (t == "" || !IsSpace(t[|t| - 1]))
    decreases |s|
  {
    if s != "" && IsSpace(s[|s| - 1]) { RightStops(s[..|s| - 1]); }
  }

  lemma TrimIsTrimmed(s: string)
    ensures Trimmed(TrimSpace(s))
  {
    LeftStops(s);
    RightStops(TrimLeft(s, IsSpace));
  }

  lemma {:induction false} JoinIsTrimmed(ws: seq<string>)
    requires AllWords(ws)
    ensures Trimmed(Join(ws, " ")) && (ws != [] ==> Join(ws, " ") != "")
    decreases |ws|
  {
    if ws != [] {
      assert IsWord(ws[0]);
      assert ws[0][0] in ws[0] && ws[0][|ws[0]| - 1] in ws[0];
      if |ws| > 1 { JoinIsTrimmed(ws[1..]); }
    }
  }

  // --- the theorems ---

  /** The words that remain are the words of the text, in order, minus exactly
      the first one that carries the prefix; none is lost when none does. */
  lemma RestKeepsTheWords(text: string, prefix: string)
    ensures var ws := Fields(text);
            var i := FirstIn(ws, prefix);
            var (name, rest) := SplitToken(text, prefix);
            && Fields(rest) == (if i < |ws| then ws[..i] + ws[i + 1..] else ws)
            && (name != "" <==> exists w :: w in ws && Carries(w, prefix))
            && Trimmed(rest)
  {
    var ws := Fields(text);
    var i := FirstIn(ws, prefix);
    FieldsAreWords("", text);
    if i < |ws| {
      assert ws[i] in ws;
      FieldsJoin(Drop(ws, i));
      JoinIsTrimmed(Drop(ws, i));
    } else {
      FieldsIgnoreTrim(text);
      TrimIsTrimmed(text);
      forall w | w in ws ensures !Carries(w, prefix) {
        var k :| 0 <= k < |ws| && ws[k] == w;
      }
    }
  }

  /** No word carries both prefixes. */
  ghost predicate Apart(p: string, q: string) { forall w :: !(Carries(w, p) && Carries(w, q)) }

  /** The place of word x once word i is dropped. */
  function Shifted(x: nat, i: nat): nat { if x > i then x - 1 else x }

  /** Dropping the first carrier of one prefix moves the first carrier of the
      other by at most one place, and does not change which word it is. */
  lemma FirstAfterDrop(ws: seq<string>, p: string, q: string)
    requires Apart(p, q) && FirstIn(ws, p) < |ws|
    ensures var i, k := FirstIn(ws, p), FirstIn(ws, q);
            FirstIn(Drop(ws, i), q) == Shifted(k, i)
  {
    var i, k := FirstIn(ws, p), FirstIn(ws, q);
    assert !Carries(ws[i], q);
    DropFirst(ws, i, q);
  }

  lemma {:induction false} DropFirst(ws: seq<string>, i: nat, q: string)
    requires i < |ws| && !Carries(ws[i], q)
    ensures FirstIn(Drop(ws, i), q) == Shifted(FirstIn(ws, q), i)
    decreases i
  {
    if i == 0 {
      assert Drop(ws, 0) == ws[1..];
    } else {
      assert Drop(ws, i)[0] == ws[0] && Drop(ws, i)[1..] == Drop(ws[1..], i - 1);
      DropFirst(ws[1..], i - 1, q);
    }
  }

  lemma OnlyOneCarried(text: string, p: string, q: string)
    requires FirstIn(Fields(text), p) < |Fields(text)| && FirstIn(Fields(text), q) == |Fields(text)| && Apart(p, q)
    ensures SplitToken(SplitToken(text, p).1, q) == ("", SplitToken(text, p).1)
    ensures SplitToken(SplitToken(text, q).1, p) == SplitToken(text, p)
  {
    var ws := Fields(text);
    RestKeepsTheWords(text, p);
    FirstAfterDrop(ws, p, q);
    AlreadyTrimmed(SplitToken(text, p).1);
    FieldsIgnoreTrim(text);
  }

  lemma {:induction false} AlreadyTrimmed(s: string)
    requires Trimmed(s)
    ensures TrimSpace(s) == s
  {
  }

  /** Taking the two tokens in either order gives the same two names and the
      same text, character for character. */
  lemma SplitsCommute(text: string, p: string, q: string)
    requires Apart(p, q)
    ensures var (a, without_a) := SplitToken(text, p);
            var (b, rest) := SplitToken(without_a, q);
            var (b', without_b) := SplitToken(text, q);
            var (a', rest') := SplitToken(without_b, p);
            a == a' && b == b' && rest == rest'
  {
    var ws := Fields(text);
    var i, k := FirstIn(ws, p), FirstIn(ws, q);
    if i < |ws| && k < |ws| {
      BothCarried(text, p, q);
    } else if i < |ws| {
      OnlyOneCarried(text, p, q);
    } else if k < |ws| {
      OnlyOneCarried(text, q, p);
    } else {
      FieldsIgnoreTrim(text);
      TrimIsTrimmed(text);
      AlreadyTrimmed(TrimSpace(text));
    }
    hide Fields, TrimSpace, Join, FirstIn;
  }

  /** Both tokens in the order p, q: which name, and which words remain. */
  lemma FirstThen(text: string, p: string, q: string)
    requires FirstIn(Fields(text), p) < |Fields(text)| && FirstIn(Fields(text), q) < |Fields(text)| && Apart(p, q)
    ensures var ws := Fields(text);
            var i, k := FirstIn(ws, p), FirstIn(ws, q);
            && i != k && Shifted(k, i) < |Drop(ws, i)|
            && SplitToken(SplitToken(text, p).1, q) == (NameOf(ws[k], q), Join(Drop(Drop(ws, i), Shifted(k, i)), " "))
  {
    RestKeepsTheWords(text, p);
    FirstAfterDrop(Fields(text), p, q);
    WordsApart(Fields(text), p, q);
    hide Fields, FirstIn, Join, TrimSpace, Carries;
    BothDropped(Fields(text), FirstIn(Fields(text), p), FirstIn(Fields(text), q));
  }

  lemma WordsApart(ws: seq<string>, p: string, q: string)
    requires Apart(p, q) && FirstIn(ws, p) < |ws| && FirstIn(ws, q) < |ws|
    ensures FirstIn(ws, p) != FirstIn(ws, q)
  {
    assert Carries(ws[FirstIn(ws, p)], p) && Carries(ws[FirstIn(ws, q)], q);
    hide FirstIn, Carries;
  }

  lemma BothCarried(text: string, p: string, q: string)
    requires FirstIn(Fields(text), p) < |Fields(text)| && FirstIn(Fields(text), q) < |Fields(text)| && Apart(p, q)
    ensures SplitToken(SplitToken(text, p).1, q) == (SplitToken(text, q).0, SplitToken(SplitToken(text, q).1, p).1)
    ensures SplitToken(SplitToken(text, q).1, p).0 == SplitToken(text, p).0
  {
    FirstThen(text, p, q);
    FirstThen(text, q, p);
    BothDropped(Fields(text), FirstIn(Fields(text), p), FirstIn(Fields(text), q));
    TokenName(text, p);
    TokenName(text, q);
    hide SplitToken, Fields, FirstIn, Join, Drop, NameOf, Apart;
  }

  lemma TokenName(text: string, p: string)
    requires FirstIn(Fields(text), p) < |Fields(text)|
    ensures SplitToken(text, p).0 == NameOf(Fields(text)[FirstIn(Fields(text), p)], p)
  {
    hide Fields, FirstIn, Join, TrimSpace;
  }

  lemma BothDropped(ws: seq<string>, i: nat, k: nat)
    requires i < |ws| && k < |ws| && i != k
    ensures Drop(ws, i)[Shifted(k, i)] == ws[k] && Drop(ws, k)[Shifted(i, k)] == ws[i]
    ensures Drop(Drop(ws, i), Shifted(k, i)) == Drop(Drop(ws, k), Shifted(i, k))
  {
    if i < k { DropTwo(ws, i, k); } else { DropTwo(ws, k, i); }
  }

  /** Two drops, in either order, leave the three stretches around them. */
  lemma DropTwo(ws: seq<string>, i: nat, k: nat)
    requires i < k < |ws|
    ensures Drop(ws, i)[k - 1] == ws[k] && Drop(ws, k)[i] == ws[i]
    ensures Drop(Drop(ws, i), k - 1) == ws[..i] + ws[i + 1..k] + ws[k + 1..] == Drop(Drop(ws, k), i)
  {
    var a, b := Drop(ws, i), Drop(ws, k);
    assert a[..k - 1] == ws[..i] + ws[i + 1..k] && a[k..] == ws[k + 1..];
    assert b[..i] == ws[..i] && b[i + 1..] == ws[i + 1..k] + ws[k + 1..];
    assert ws[..i] + (ws[i + 1..k] + ws[k + 1..]) == ws[..i] + ws[i + 1..k] + ws[k + 1..];
  }

  lemma PrefixesApart()
    ensures Apart(WS, AGENT)
  {
    assert WS[0] != AGENT[0];
  }

  /** For the two real tokens, with the agent's name lower-cased either way. */
  lemma WorkspaceAndAgentCommute(text: string)
    ensures var (ws, t1) := SplitToken(text, WS);
            var (agent, rest) := SplitAgentToken(t1);
            var (agent', t2) := SplitAgentToken(text);
            var (ws', rest') := SplitToken(t2, WS);
            ws == ws' && agent == agent' && rest == rest'
  {
    PrefixesApart();
    SplitsCommute(text, WS, AGENT);
  }
}
