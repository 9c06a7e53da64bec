/** Which byte strings are UTF-8 text (section 4 of RFC 3629), and how that distributes over paths. */
module Utf8 {
  /** The length of a character, by its first byte; zero where none begins. */
  function Width(lead: char): nat {
    var n := lead as int;
    if n < 0x80 then 1 else if 0xC2 <= n < 0xE0 then 2 else if 0xE0 <= n < 0xF0 then 3 else if 0xF0 <= n < 0xF5 then 4 else 0
  }

  predicate Tail(c: char) {
    0x80 <= c as int < 0xC0
  }

  /** The second byte excludes overlong forms, surrogates and code points out of range. */
  predicate Second(lead: char, c: char) {
    var n := c as int;
    && Tail(c)
    && (lead as int == 0xE0 ==> n >= 0xA0) && (lead as int == 0xED ==> n < 0xA0)
    && (lead as int == 0xF0 ==> n >= 0x90) && (lead as int == 0xF4 ==> n < 0x90)
  }

  predicate Character(s: string) {
    && s != "" && |s| == Width(s[0]) && (|s| > 1 ==> Second(s[0], s[1]))
    && forall i :: 2 <= i < |s| ==> Tail(s[i])
  }

  predicate Valid(s: string)
    decreases |s|
  {
    s == "" || (var w := Width(s[0]); 0 < w <= |s| && Character(s[..w]) && Valid(s[w..]))
  }

  /** A slash stands for itself: text may be cut there. */
  lemma {:induction false} ValidAround(a: string, b: string)
    ensures Valid(a + "/" + b) <==> Valid(a) && Valid(b)
    decreases |a|
  {
    var s := a + "/" + b;
    if a == "" {
      assert s[1..] == b && s[..1] == "/";
      assert Valid(s) <==> Valid(b);
    } else {
      var w := Width(a[0]);
      assert s[0] == a[0];
      if 0 < w <= |a| {
        assert s[..w] == a[..w] && s[w..] == a[w..] + "/" + b;
        ValidAround(a[w..], b);
      } else if w > |a| && w <= |s| {
        assert s[..w][|a|] == '/' && !Tail('/');
        assert !Character(s[..w]);
      }
    }
  }
}
