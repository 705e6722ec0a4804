/** The harness's conversation store: (bot, thread) to the last agent session.
    The key is the JSON text of the pair, so separate conversations need that
    text to be injective. */
module Sessions {
  import opened Basics

  /** One character of a JSON string as encoding/json writes it. */
  function Escape(c: char): string {
    if c == '\"' then "\\\""
    else if c == '\\' then "\\\\"
    else if c as int == 8 then "\\b"
    else if c as int == 12 then "\\f"
    else if c == '\n' then "\\n"
    else if c == '\r' then "\\r"
    else if c == '\t' then "\\t"
    else if c as int < 0x20 || c in {'<', '>', '&'} then "\\u00" + [Hex(c as int / 16), Hex(c as int % 16)]
    else if c as int == 0x2028 then "\\u2028"
    else if c as int == 0x2029 then "\\u2029"
    else [c]
  }

  function Hex(d: int): char
    requires 0 <= d < 16
  {
    "0123456789abcdef"[d]
  }

  function HexValue(c: char): int {
    if '0' <= c <= '9' then c as int - '0' as int
    else if 'a' <= c <= 'f' then c as int - 'a' as int + 10
    else 0
  }

  /** The escaped characters of `s`, the closing quote, and what follows it. */
  function Closed(s: string, rest: string): string {
    if s == "" then ['\"'] + rest else Escape(s[0]) + Closed(s[1..], rest)
  }

  /** ["<bot>","<root>"] */
  function Key(bot: string, root: string): string {
    "[\"" + Closed(bot, ",\"" + Closed(root, "]"))
  }

  /** Reads one character back: its code point and how much text it took. */
  function Unescape(s: string): (int, int) {
    if |s| == 0 then (0, 0)
    else if s[0] != '\\' || |s| == 1 then (s[0] as int, 1)
    else match s[1]
      case 'b' => (8, 2)
      case 'f' => (12, 2)
      case 'n' => (10, 2)
      case 'r' => (13, 2)
      case 't' => (9, 2)
      case 'u' =>
        if |s| < 6 then (0, 0)
        else (((HexValue(s[2]) * 16 + HexValue(s[3])) * 16 + HexValue(s[4])) * 16 + HexValue(s[5]), 6)
      case c => (c as int, 2)
  }

  lemma EscapeShape(c: char)
    ensures |Escape(c)| > 0 && Escape(c)[0] != '\"'
    ensures Unescape(Escape(c)) == (c as int, |Escape(c)|)
  {
    if c as int < 0x20 || c in {'<', '>', '&'} {
      assert HexValue(Hex(c as int / 16)) == c as int / 16;
      assert HexValue(Hex(c as int % 16)) == c as int % 16;
    }
  }

  /** Whatever follows, the character and the rest are recovered. */
  lemma UnescapeEscape(c: char, rest: string)
    ensures Unescape(Escape(c) + rest) == (c as int, |Escape(c)|)
    ensures (Escape(c) + rest)[|Escape(c)|..] == rest
  {
    EscapeShape(c);
    var s, e := Escape(c) + rest, Escape(c);
    assert forall i | 0 <= i < |e| :: s[i] == e[i];
  }

  lemma ClosedHead(a: string, x: string)
    ensures |Closed(a, x)| > 0 && (Closed(a, x)[0] == '\"' <==> a == "")
  {
    if a != "" { EscapeShape(a[0]); }
  }

  lemma {:induction false} ClosedInjective(a: string, x: string, b: string, y: string)
    requires Closed(a, x) == Closed(b, y)
    ensures a == b && x == y
    decreases |a|
  {
    ClosedHead(a, x);
    ClosedHead(b, y);
    if a == "" {
      assert Closed(a, x)[1..] == x && Closed(b, y)[1..] == y;
    } else {
      UnescapeEscape(a[0], Closed(a[1..], x));
      UnescapeEscape(b[0], Closed(b[1..], y));
      ClosedInjective(a[1..], x, b[1..], y);
      assert a == [a[0]] + a[1..] && b == [b[0]] + b[1..];
    }
  }

  /** Two conversations share a key only if they are the same conversation. */
  lemma KeyInjective(bot: string, root: string, bot': string, root': string)
    ensures Key(bot, root) == Key(bot', root') <==> bot == bot' && root == root'
  {
    if Key(bot, root) == Key(bot', root') {
      var x, y := ",\"" + Closed(root, "]"), ",\"" + Closed(root', "]");
      assert Key(bot, root)[2..] == Closed(bot, x) && Key(bot', root')[2..] == Closed(bot', y);
      ClosedInjective(bot, x, bot', y);
      assert x[2..] == Closed(root, "]") && y[2..] == Closed(root', "]");
      ClosedInjective(root, "]", root', "]");
    }
  }

  /** Written as it is inside a JSON string. */
  predicate IsPlain(c: char) {
    c as int >= 0x20 && c !in {'\"', '\\', '<', '>', '&'} && c as int != 0x2028 && c as int != 0x2029
  }

  lemma {:induction false} PlainClosed(s: string, rest: string)
    requires forall c | c in s :: IsPlain(c)
    ensures Closed(s, rest) == s + "\"" + rest
    decreases |s|
  {
    if s != "" {
      assert s[0] in s && IsPlain(s[0]);
      PlainClosed(s[1..], rest);
      assert Escape(s[0]) == [s[0]] && s == [s[0]] + s[1..];
    }
  }

  /** The key of ordinary ids is the JSON array of the two. */
  lemma PlainKey(bot: string, root: string)
    requires forall c | c in bot + root :: IsPlain(c)
    ensures Key(bot, root) == "[\"" + bot + "\",\"" + root + "\"]"
  {
    PlainClosed(root, "]");
    PlainClosed(bot, ",\"" + Closed(root, "]"));
    assert bot + "\"" + (",\"" + (root + "\"" + "]")) == bot + "\",\"" + root + "\"]";
  }

  datatype Entry = Entry(sessionId: string, workspace: string, agent: string)

  function Lookup(m: map<string, Entry>, bot: string, root: string): Option<Entry> {
    if Key(bot, root) in m then Some(m[Key(bot, root)]) else None
  }

  class SessionMap {
    var m: map<string, Entry>

    constructor ()
      ensures m == map[]
    {
      m := map[];
    }

    method Get(bot: string, root: string) returns (e: Option<Entry>)
      ensures e == Lookup(m, bot, root)
    {
      e := if Key(bot, root) in m then Some(m[Key(bot, root)]) else None;
    }

    /** Only this conversation's entry changes. */
    method Put(bot: string, root: string, e: Entry)
      modifies this
      ensures m == old(m)[Key(bot, root) := e]
      ensures forall b, r :: Lookup(m, b, r) == if b == bot && r == root then Some(e) else Lookup(old(m), b, r)
    {
      m := m[Key(bot, root) := e];
      forall b, r ensures Lookup(m, b, r) == if b == bot && r == root then Some(e) else Lookup(old(m), b, r) {
        KeyInjective(b, r, bot, root);
      }
    }

    method Delete(bot: string, root: string)
      modifies this
      ensures forall b, r :: Lookup(m, b, r) == if b == bot && r == root then None else Lookup(old(m), b, r)
    {
      m := m - {Key(bot, root)};
      forall b, r ensures Lookup(m, b, r) == if b == bot && r == root then None else Lookup(old(m), b, r) {
        KeyInjective(b, r, bot, root);
      }
    }
  }
}
