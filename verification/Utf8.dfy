/** Which byte strings are UTF-8 (section 4 of RFC 3629): what a strict JSON serializer accepts. A
    character of a `string` stands for one byte. */
module Utf8 {
  import opened Schedules

  predicate InRange(s: string, i: nat, low: int, high: int) {
    i < |s| && low <= s[i] as int <= high
  }

  predicate Tail(s: string, i: nat) { InRange(s, i, 0x80, 0xBF) }

  /** The length of the well-formed character at the head, or zero. */
  function Width(s: string): (n: nat)
    ensures n <= |s| && n <= 4
  {
    if InRange(s, 0, 0x00, 0x7F) then 1
    else if InRange(s, 0, 0xC2, 0xDF) && Tail(s, 1) then 2
    else if InRange(s, 0, 0xE0, 0xE0) && InRange(s, 1, 0xA0, 0xBF) && Tail(s, 2) then 3
    else if InRange(s, 0, 0xED, 0xED) && InRange(s, 1, 0x80, 0x9F) && Tail(s, 2) then 3
    else if (InRange(s, 0, 0xE1, 0xEC) || InRange(s, 0, 0xEE, 0xEF)) && Tail(s, 1) && Tail(s, 2) then 3
    else if InRange(s, 0, 0xF0, 0xF0) && InRange(s, 1, 0x90, 0xBF) && Tail(s, 2) && Tail(s, 3) then 4
    else if InRange(s, 0, 0xF1, 0xF3) && Tail(s, 1) && Tail(s, 2) && Tail(s, 3) then 4
    else if InRange(s, 0, 0xF4, 0xF4) && InRange(s, 1, 0x80, 0x8F) && Tail(s, 2) && Tail(s, 3) then 4
    else 0
  }

  predicate ValidText(s: string) {
    s == "" || (Width(s) > 0 && ValidText(s[Width(s)..]))
  }

  /** Reading a character looks no further than its own bytes. */
  lemma {:induction false} WidthIsLocal(c: string, rest: string)
    requires c != "" && Width(c) == |c|
    ensures Width(c + rest) == |c|
  {
    assert forall i :: 0 <= i < |c| ==> (c + rest)[i] == c[i];
  }

  lemma {:induction false} HeadOnly(s: string)
    requires Width(s) > 0
    ensures Width(s[..Width(s)]) == Width(s)
  {
    assert forall i :: 0 <= i < Width(s) ==> s[..Width(s)][i] == s[i];
  }

  /** Behind valid text, validity is that of the rest. */
  lemma {:induction false} ValidPrefix(a: string, b: string)
    requires ValidText(a)
    ensures ValidText(a + b) <==> ValidText(b)
  {
    if a == "" {
      assert a + b == b;
    } else {
      var n := Width(a);
      HeadOnly(a);
      assert a + b == a[..n] + (a[n..] + b);
      WidthIsLocal(a[..n], a[n..] + b);
      assert (a + b)[n..] == a[n..] + b;
      ValidPrefix(a[n..], b);
    }
  }

  /** A text cut inside a character is not valid any more. */
  lemma {:induction false} CutInsideACharacter(a: string, c: string, k: nat)
    requires ValidText(a) && Width(c) == |c| && 0 < k < |c|
    ensures ValidText(a + c) && !ValidText(a + c[..k])
  {
    assert c[|c|..] == "";
    ValidPrefix(a, c);
    ValidPrefix(a, c[..k]);
    assert forall i :: 0 <= i < k ==> c[..k][i] == c[i];
    assert Width(c[..k]) == 0;
  }

  lemma {:induction false} AsciiIsValid(s: string)
    requires forall i :: 0 <= i < |s| ==> s[i] as int < 0x80
    ensures ValidText(s)
  {
    if s != "" { AsciiIsValid(s[1..]); }
  }

  /** A valid text whose first 1024 bytes are not. */
  lemma {:induction false} ClippedInsideACharacter() returns (text: string)
    ensures ValidText(text) && |text| == 1025 && !ValidText(Clip(text, 1024))
  {
    var a := seq(1023, i => 'a');
    var c := [0xC3 as char, 0xA9 as char];
    AsciiIsValid(a);
    CutInsideACharacter(a, c, 1);
    text := a + c;
    assert text[..1024] == a + c[..1];
  }
}
