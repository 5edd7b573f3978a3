/** Well-formed UTF-8, section 4 of RFC 3629. */
module Utf8 {

  type byte = b: int | 0 <= b < 256

  predicate Tail(b: byte) { 0x80 <= b <= 0xBF }

  /** The range of the second byte, which depends on the first. */
  predicate Second(b0: byte, b1: byte) {
    if b0 == 0xE0 then 0xA0 <= b1 <= 0xBF
    else if b0 == 0xED then 0x80 <= b1 <= 0x9F
    else if b0 == 0xF0 then 0x90 <= b1 <= 0xBF
    else if b0 == 0xF4 then 0x80 <= b1 <= 0x8F
    else Tail(b1)
  }

  /** Length of the rune `s` starts with, or 0 if it starts with none. */
  function RuneLength(s: seq<byte>): (n: nat)
    ensures n <= 4 && n <= |s|
  {
    if s == [] then 0
    else if s[0] < 0x80 then 1
    else if 0xC2 <= s[0] <= 0xDF && |s| >= 2 && Tail(s[1]) then 2
    else if 0xE0 <= s[0] <= 0xEF && |s| >= 3 && Second(s[0], s[1]) && Tail(s[2]) then 3
    else if 0xF0 <= s[0] <= 0xF4 && |s| >= 4 && Second(s[0], s[1]) && Tail(s[2]) && Tail(s[3]) then 4
    else 0
  }

  predicate Valid(s: seq<byte>)
    decreases |s|
  {
    s == [] || (RuneLength(s) > 0 && Valid(s[RuneLength(s)..]))
  }

  /** The first rune is decided by its own bytes. */
  lemma RuneIsLocal(s: seq<byte>, t: seq<byte>)
    requires RuneLength(s) > 0
    ensures RuneLength(s + t) == RuneLength(s)
  {
  }

  lemma RunePrefix(s: seq<byte>, n: nat)
    requires RuneLength(s) <= n <= |s|
    ensures RuneLength(s[..n]) == RuneLength(s) || RuneLength(s) == 0
  {
  }

  lemma ValidAfterRune(s: seq<byte>)
    requires RuneLength(s) > 0 && Valid(s[RuneLength(s)..])
    ensures Valid(s)
  {
  }

  lemma {:induction false} ValidConcat(a: seq<byte>, b: seq<byte>)
    requires Valid(a) && Valid(b)
    ensures Valid(a + b)
    decreases |a|
  {
    hide RuneLength;
    if a == [] {
      assert a + b == b;
    } else {
      var n := RuneLength(a);
      RuneIsLocal(a, b);
      ValidConcat(a[n..], b);
      assert (a + b)[n..] == a[n..] + b;
      ValidAfterRune(a + b);
    }
  }

  /** Cutting valid text after a valid prefix leaves valid text. */
  lemma {:induction false} ValidRemainder(a: seq<byte>, b: seq<byte>)
    requires Valid(a) && Valid(a + b)
    ensures Valid(b)
    decreases |a|
  {
    if a == [] {
      assert a + b == b;
    } else {
      var n := RuneLength(a);
      RuneIsLocal(a, b);
      assert (a + b)[n..] == a[n..] + b;
      ValidRemainder(a[n..], b);
    }
  }

  /** In valid text a rune boundary is never more than three bytes ahead. */
  lemma {:induction false} BoundaryAhead(s: seq<byte>, k: nat) returns (m: nat)
    requires Valid(s) && k <= |s|
    ensures k <= m <= |s| && m <= k + 3 && Valid(s[..m])
    decreases |s|
  {
    if k == 0 {
      m := 0;
    } else {
      var n := RuneLength(s);
      RunePrefix(s, n);
      if k <= n {
        m := n;
        assert s[..n][n..] == [];
      } else {
        var r := BoundaryAhead(s[n..], k - n);
        m := n + r;
        RunePrefix(s, m);
        assert s[..m][n..] == s[n..][..r];
      }
    }
  }

  /** Dropping a trailing ASCII byte keeps text valid. */
  lemma {:induction false} ValidWithoutLast(s: seq<byte>)
    requires Valid(s) && |s| > 0 && s[|s| - 1] < 0x80
    ensures Valid(s[..|s| - 1])
    decreases |s|
  {
    var n := RuneLength(s);
    if n == |s| {
      assert s[..|s| - 1] == [];
    } else {
      ValidWithoutLast(s[n..]);
      RunePrefix(s, |s| - 1);
      assert s[n..][..|s| - n - 1] == s[..|s| - 1][n..];
    }
  }
}
