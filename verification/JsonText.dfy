/** The compact text of the JSON trees that canonical states are made of. A character stands
    for one byte of the text. Distinct trees have distinct texts. */
module JsonText {

  datatype Tree = TString(text: string) | TBool(b: bool) | TArray(items: seq<Tree>)

  function Hex(d: nat): char
    requires d < 16
  {
    if d < 10 then '0' + d as char else 'a' + (d - 10) as char
  }

  function EscapeChar(c: char): (s: string)
    ensures s != "" && s[0] != '"'
  {
    var code := c as int;
    if c == '"' then "\\\""
    else if c == '\\' then "\\\\"
    else if code == 8 then "\\b"
    else if code == 9 then "\\t"
    else if code == 10 then "\\n"
    else if code == 12 then "\\f"
    else if code == 13 then "\\r"
    else if code < 32 then ['\\', 'u', '0', '0', Hex(code / 16), Hex(code % 16)]
    else [c]
  }

  function Escape(s: string): string {
    if s == "" then "" else EscapeChar(s[0]) + Escape(s[1..])
  }

  function Dump(t: Tree): (s: string)
    ensures s != "" && s[0] != ']'
    decreases t, 0
  {
    match t
    case TString(text) => "\"" + Escape(text) + "\""
    case TBool(b) => if b then "true" else "false"
    case TArray(items) => "[" + DumpItems(items) + "]"
  }

  function DumpItems(items: seq<Tree>): string
    decreases items, 1
  {
    if items == [] then ""
    else if |items| == 1 then Dump(items[0])
    else Dump(items[0]) + "," + DumpItems(items[1..])
  }

  // ----- unique readability -----------------------------------------------------------

  lemma {:induction false} HexInjective(d: nat, e: nat)
    requires d < 16 && e < 16 && Hex(d) == Hex(e)
    ensures d == e
  {
  }

  lemma {:induction false} EscapeCharReadable(c: char, d: char, x: string, y: string)
    requires EscapeChar(c) + x == EscapeChar(d) + y
    ensures c == d && x == y
  {
    var s, t := EscapeChar(c) + x, EscapeChar(d) + y;
    assert s[0] == EscapeChar(c)[0] && t[0] == EscapeChar(d)[0];
    if s[0] == '\\' {
      assert |EscapeChar(c)| >= 2 && |EscapeChar(d)| >= 2;
      assert s[1] == EscapeChar(c)[1] && t[1] == EscapeChar(d)[1];
      if s[1] == 'u' {
        assert s[4] == EscapeChar(c)[4] && t[4] == EscapeChar(d)[4] && s[5] == EscapeChar(c)[5] && t[5] == EscapeChar(d)[5];
        HexInjective(c as int / 16, d as int / 16);
        HexInjective(c as int % 16, d as int % 16);
      }
    }
    assert c == d;
    assert x == s[|EscapeChar(c)|..] && y == t[|EscapeChar(d)|..];
  }

  lemma {:induction false} Uncons(c: char, d: char, x: string, y: string)
    requires [c] + x == [d] + y
    ensures c == d && x == y
  {
    assert ([c] + x)[0] == c && ([d] + y)[0] == d;
    assert ([c] + x)[1..] == x && ([d] + y)[1..] == y;
  }

  lemma {:induction false} Associate(a: string, b: string, c: string, d: string, e: string)
    ensures a + c + d == a + (c + d)
    ensures (a + b) + c + d == a + (b + c + d)
    ensures (a + b + e) + c + d == a + (b + (e + c + d))
  {
  }

  lemma {:induction false} FirstOf(a: string, b: string)
    requires a != ""
    ensures a + b != "" && (a + b)[0] == a[0]
  {
  }

  /** A closed string text begins with a quote exactly when it is empty. */
  lemma {:induction false} EscapeHead(s: string, x: string)
    ensures Escape(s) + "\"" + x != "" && ((Escape(s) + "\"" + x)[0] == '"' <==> s == "")
    ensures s == "" ==> Escape(s) + "\"" + x == ['"'] + x
    ensures s != "" ==> Escape(s) + "\"" + x == EscapeChar(s[0]) + (Escape(s[1..]) + "\"" + x)
  {
    hide EscapeChar;
    if s == "" {
      assert Escape(s) + "\"" + x == ['"'] + x;
    } else {
      var head, rest := EscapeChar(s[0]), Escape(s[1..]);
      assert Escape(s) == head + rest;
      hide Escape;
      Associate(head, rest, "\"", x, "");
      FirstOf(head, rest + "\"" + x);
    }
  }

  lemma {:induction false} EscapeReadable(s: string, t: string, x: string, y: string)
    requires Escape(s) + "\"" + x == Escape(t) + "\"" + y
    ensures s == t && x == y
  {
    hide EscapeChar, Escape;
    EscapeHead(s, x);
    EscapeHead(t, y);
    if s == "" {
      Uncons('"', '"', x, y);
    } else {
      EscapeCharReadable(s[0], t[0], Escape(s[1..]) + "\"" + x, Escape(t[1..]) + "\"" + y);
      EscapeReadable(s[1..], t[1..], x, y);
      assert s == [s[0]] + s[1..] && t == [t[0]] + t[1..];
    }
  }

  lemma {:induction false} Unfold(t: Tree, x: string)
    ensures t.TString? ==> Dump(t) + x == ['"'] + (Escape(t.text) + "\"" + x)
    ensures t.TArray? ==> Dump(t) + x == ['['] + (DumpItems(t.items) + "]" + x)
    ensures t == TBool(true) ==> Dump(t) + x == ['t'] + ("rue" + x)
    ensures t == TBool(false) ==> Dump(t) + x == ['f'] + ("alse" + x)
  {
    hide Escape, DumpItems;
  }

  function Head(t: Tree): char {
    match t
    case TString(_) => '"'
    case TBool(b) => if b then 't' else 'f'
    case TArray(_) => '['
  }

  lemma {:induction false} SameHead(t: Tree, u: Tree, x: string, y: string)
    requires Dump(t) + x == Dump(u) + y
    ensures Head(t) == Head(u)
  {
    hide Escape, DumpItems;
    assert (Dump(t) + x)[0] == Dump(t)[0] && (Dump(u) + y)[0] == Dump(u)[0];
  }

  lemma {:induction false} SameTail(p: string, x: string, y: string)
    requires p + x == p + y
    ensures x == y
  {
    assert (p + x)[|p|..] == x && (p + y)[|p|..] == y;
  }

  /** A tree's text says where it ends: two texts that begin with trees agree on them. */
  lemma {:induction false} DumpReadable(t: Tree, u: Tree, x: string, y: string)
    requires Dump(t) + x == Dump(u) + y
    ensures t == u && x == y
    decreases t, 0
  {
    hide Dump, Escape, DumpItems;
    SameHead(t, u, x, y);
    match t
    case TString(s) =>
      Unfold(t, x);
      Unfold(u, y);
      Uncons('"', '"', Escape(s) + "\"" + x, Escape(u.text) + "\"" + y);
      EscapeReadable(s, u.text, x, y);
    case TBool(_) => SameTail(Dump(t), x, y);
    case TArray(items) =>
      Unfold(t, x);
      Unfold(u, y);
      Uncons('[', '[', DumpItems(items) + "]" + x, DumpItems(u.items) + "]" + y);
      ItemsReadable(items, u.items, x, y);
  }

  /** What follows the first item: the end of the array, or a comma and the rest. */
  function AfterFirst(items: seq<Tree>, x: string): string
    requires items != []
  {
    if |items| == 1 then [']'] + x else [','] + (DumpItems(items[1..]) + "]" + x)
  }

  lemma {:induction false} SplitFirst(items: seq<Tree>, x: string)
    ensures DumpItems(items) + "]" + x != "" && ((DumpItems(items) + "]" + x)[0] == ']' <==> items == [])
    ensures items == [] ==> DumpItems(items) + "]" + x == [']'] + x
    ensures items != [] ==> DumpItems(items) + "]" + x == Dump(items[0]) + AfterFirst(items, x)
  {
    hide Dump;
    if items == [] {
      assert DumpItems(items) + "]" + x == [']'] + x;
    } else {
      var head := Dump(items[0]);
      if |items| == 1 {
        assert DumpItems(items) == head;
        hide DumpItems;
        Associate(head, "", "]", x, "");
      } else {
        var rest := DumpItems(items[1..]);
        assert DumpItems(items) == head + "," + rest;
        hide DumpItems;
        Associate(head, ",", "]", x, rest);
      }
      FirstOf(head, AfterFirst(items, x));
    }
  }

  lemma {:induction false} ItemsReadable(a: seq<Tree>, b: seq<Tree>, x: string, y: string)
    requires DumpItems(a) + "]" + x == DumpItems(b) + "]" + y
    ensures a == b && x == y
    decreases a, 1
  {
    hide Dump, DumpItems, AfterFirst;
    SplitFirst(a, x);
    SplitFirst(b, y);
    if a == [] {
      Uncons(']', ']', x, y);
    } else {
      DumpReadable(a[0], b[0], AfterFirst(a, x), AfterFirst(b, y));
      RestReadable(a, b, x, y);
    }
  }

  lemma {:induction false} RestReadable(a: seq<Tree>, b: seq<Tree>, x: string, y: string)
    requires a != [] && b != [] && a[0] == b[0] && AfterFirst(a, x) == AfterFirst(b, y)
    ensures a == b && x == y
    decreases a, 0
  {
    hide Dump, DumpItems;
    assert |a| == 1 <==> |b| == 1 by { assert AfterFirst(a, x)[0] == AfterFirst(b, y)[0]; }
    if |a| == 1 {
      Uncons(']', ']', x, y);
    } else {
      Uncons(',', ',', DumpItems(a[1..]) + "]" + x, DumpItems(b[1..]) + "]" + y);
      ItemsReadable(a[1..], b[1..], x, y);
      assert a == [a[0]] + a[1..] && b == [b[0]] + b[1..];
    }
  }

  /** Distinct trees have distinct texts. */
  lemma {:induction false} DumpInjective(t: Tree, u: Tree)
    requires Dump(t) == Dump(u)
    ensures t == u
  {
    assert Dump(t) + "" == Dump(t) && Dump(u) + "" == Dump(u);
    DumpReadable(t, u, "", "");
  }
}
