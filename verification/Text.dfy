/** The parts of Go's strings package the modelled code uses, on sequences of characters. */
module Text {

  /** unicode.IsSpace. */
  predicate IsSpace(c: char) {
    var n := c as int;
    || 0x09 <= n <= 0x0D || n == 0x20 || n == 0x85 || n == 0xA0 || n == 0x1680
    || 0x2000 <= n <= 0x200A || n == 0x2028 || n == 0x2029 || n == 0x202F || n == 0x205F || n == 0x3000
  }

  function TrimLeft(s: string, cut: char -> bool): (r: string)
    ensures r == "" || !cut(r[0])
    ensures |r| <= |s| && r == s[|s| - |r|..]
    ensures forall i :: 0 <= i < |s| - |r| ==> cut(s[i])
  {
    if s == "" || !cut(s[0]) then s else TrimLeft(s[1..], cut)
  }

  function TrimRight(s: string, cut: char -> bool): (r: string)
    ensures r == "" || !cut(r[|r| - 1])
    ensures r <= s
    ensures forall i :: |r| <= i < |s| ==> cut(s[i])
  {
    if s == "" || !cut(s[|s| - 1]) then s else TrimRight(s[..|s| - 1], cut)
  }

  function Trim(s: string, cut: char -> bool): (r: string)
    ensures r == "" || (!cut(r[0]) && !cut(r[|r| - 1]))
    ensures |r| <= |s|
  {
    TrimRight(TrimLeft(s, cut), cut)
  }

  /** Nothing is cut from a text whose two ends are to be kept. */
  lemma TrimNothing(s: string, cut: char -> bool)
    requires s != "" ==> !cut(s[0]) && !cut(s[|s| - 1])
    ensures Trim(s, cut) == s
  {
  }

  /** Exactly what is to be cut is cut, at both ends. */
  lemma {:induction false} TrimAround(a: string, m: string, b: string, cut: char -> bool)
    requires (forall i :: 0 <= i < |a| ==> cut(a[i])) && (forall i :: 0 <= i < |b| ==> cut(b[i]))
    requires m != "" ==> !cut(m[0]) && !cut(m[|m| - 1])
    ensures Trim(a + m + b, cut) == m
  {
    hide TrimLeft, TrimRight;
    if m == "" {
      assert a + m + b == a + b;
      TrimAll(a + m + b, cut);
    } else {
      assert a + m + b == a + (m + b);
      TrimFront(a, m + b, cut);
      TrimBack(m, b, cut);
    }
  }

  lemma {:induction false} TrimAll(s: string, cut: char -> bool)
    requires forall i :: 0 <= i < |s| ==> cut(s[i])
    ensures Trim(s, cut) == ""
  {
  }

  lemma TrimLeftSteps(s: string, cut: char -> bool)
    requires s != ""
    ensures TrimLeft(s, cut) == if cut(s[0]) then TrimLeft(s[1..], cut) else s
  {
  }

  lemma {:induction false} TrimFront(a: string, m: string, cut: char -> bool)
    requires (forall i :: 0 <= i < |a| ==> cut(a[i])) && m != "" && !cut(m[0])
    ensures TrimLeft(a + m, cut) == m
  {
    hide TrimLeft;
    TrimLeftSteps(a + m, cut);
    if a != "" {
      TrimFront(a[1..], m, cut);
      assert (a + m)[1..] == a[1..] + m;
    } else {
      assert a + m == m;
    }
  }

  lemma {:induction false} TrimBack(m: string, b: string, cut: char -> bool)
    requires (forall i :: 0 <= i < |b| ==> cut(b[i])) && m != "" && !cut(m[|m| - 1])
    ensures TrimRight(m + b, cut) == m
  {
    if b != "" {
      TrimBack(m, b[..|b| - 1], cut);
      assert (m + b)[..|m + b| - 1] == m + b[..|b| - 1];
    } else {
      assert m + b == m;
    }
  }

  function TrimSpace(s: string): string {
    Trim(s, IsSpace)
  }

  /** r is s without the white space around it. */
  ghost predicate TrimmedOf(r: string, s: string) {
    && (r != "" ==> !IsSpace(r[0]) && !IsSpace(r[|r| - 1]))
    && exists i, j :: 0 <= i <= j <= |s| && r == s[i..j] && Blank(s[..i]) && Blank(s[j..])
  }

  predicate Blank(s: string) {
    forall k :: 0 <= k < |s| ==> IsSpace(s[k])
  }

  lemma {:induction false} TrimSpaceIs(s: string)
    ensures TrimmedOf(TrimSpace(s), s)
  {
    hide IsSpace, TrimLeft, TrimRight;
    var left := TrimLeft(s, IsSpace);
    var r := TrimRight(left, IsSpace);
    var i := |s| - |left|;
    assert r == left[..|r|] == s[i..i + |r|];
    assert Blank(s[..i]);
    var tail := s[i + |r|..];
    forall k | 0 <= k < |tail| ensures IsSpace(tail[k]) {
      assert tail[k] == left[|r| + k];
    }
  }

  /** The position of the first dot, or the length when there is none. */
  function DotAt(s: string): (i: nat)
    ensures i <= |s| && (i < |s| ==> s[i] == '.')
    ensures forall j :: 0 <= j < i ==> s[j] != '.'
  {
    if s == "" || s[0] == '.' then 0 else 1 + DotAt(s[1..])
  }

  lemma DotAtIs(s: string, i: nat)
    requires i <= |s| && (i < |s| ==> s[i] == '.')
    requires forall j :: 0 <= j < i ==> s[j] != '.'
    ensures DotAt(s) == i
  {
  }
}
