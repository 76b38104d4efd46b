/** The few Python string built-ins the cloner relies on, on `string`
    (a sequence of characters): `str(int)`, `s.split(sep)[0]`,
    `s.removeprefix(p)`, `"  " in s`, `s.replace("  ", " ")` and `s.strip()`.
    Together with their properties: splitting stops at the separator, and
    replacing double spaces until none is left collapses every run of
    spaces into one. */
module PyStr {

  // ---------------------------------------------------------------------------
  // str(int)

  function Digit(d: nat): char
    requires d < 10
  {
    "0123456789"[d]
  }

  /** The decimal digits of `n`, most significant first, without leading zeros. */
  function NatToString(n: nat): (s: string)
    ensures |s| >= 1
    ensures forall i | 0 <= i < |s| :: '0' <= s[i] <= '9'
  {
    if n < 10 then [Digit(n)] else NatToString(n / 10) + [Digit(n % 10)]
  }

  /** Python's `str(i)`: a minus sign followed by the digits of `-i` when `i` is negative. */
  function IntToString(i: int): string
  {
    if i < 0 then "-" + NatToString(-i) else NatToString(i)
  }

  // ---------------------------------------------------------------------------
  // s.split(sep)[0] and s.removeprefix(p)

  /** `s.split(sep)[0]`: the part of `s` before the first `sep`, or all of `s`. */
  function SplitFirst(s: string, sep: char): (r: string)
    ensures |r| <= |s| && r == s[..|r|]
    ensures sep !in r
    ensures |r| < |s| ==> s[|r|] == sep
  {
    if s == [] then []
    else if s[0] == sep then []
    else [s[0]] + SplitFirst(s[1..], sep)
  }

  predicate StartsWith(s: string, p: string)
  {
    |p| <= |s| && s[..|p|] == p
  }

  /** `s.removeprefix(p)`. */
  function RemovePrefix(s: string, p: string): (r: string)
    ensures StartsWith(s, p) ==> p + r == s
    ensures !StartsWith(s, p) ==> r == s
  {
    if StartsWith(s, p) then s[|p|..] else s
  }

  // ---------------------------------------------------------------------------
  // "  " in s, s.replace("  ", " ") and the runs of spaces they collapse

  /** `"  " in s`. */
  predicate HasDoubleSpace(s: string)
  {
    |s| >= 2 && ((s[0] == ' ' && s[1] == ' ') || HasDoubleSpace(s[1..]))
  }

  lemma {:induction false} DoubleSpaceAt(s: string)
    ensures HasDoubleSpace(s) <==> exists i | 0 <= i < |s| - 1 :: s[i] == ' ' && s[i + 1] == ' '
  {
    if |s| >= 2 {
      DoubleSpaceAt(s[1..]);
      if exists i | 0 <= i < |s| - 1 :: s[i] == ' ' && s[i + 1] == ' ' {
        var i :| 0 <= i < |s| - 1 && s[i] == ' ' && s[i + 1] == ' ';
        if i > 0 {
          assert s[1..][i - 1] == ' ' && s[1..][i] == ' ';
        }
      }
      if HasDoubleSpace(s[1..]) {
        var i :| 0 <= i < |s[1..]| - 1 && s[1..][i] == ' ' && s[1..][i + 1] == ' ';
        assert s[i + 1] == ' ' && s[i + 2] == ' ';
      }
    }
  }

  /** A slice of a string without two consecutive spaces has none either. */
  lemma NoDoubleSpaceInSlice(s: string, a: nat, b: nat)
    requires a <= b <= |s|
    requires !HasDoubleSpace(s)
    ensures !HasDoubleSpace(s[a..b])
  {
    DoubleSpaceAt(s);
    DoubleSpaceAt(s[a..b]);
    forall i | 0 <= i < |s[a..b]| - 1
      ensures !(s[a..b][i] == ' ' && s[a..b][i + 1] == ' ')
    {
      assert s[a..b][i] == s[a + i] && s[a..b][i + 1] == s[a + i + 1];
    }
  }

  /** `s.replace("  ", " ")`: non-overlapping double spaces, left to right,
      each become one space. */
  function ReplaceDoubleSpaces(s: string): (r: string)
    ensures |r| <= |s|
    ensures HasDoubleSpace(s) ==> |r| < |s|
    ensures |s| > 0 ==> |r| > 0 && r[0] == s[0]
  {
    if |s| >= 2 && s[0] == ' ' && s[1] == ' ' then " " + ReplaceDoubleSpaces(s[2..])
    else if s == [] then []
    else [s[0]] + ReplaceDoubleSpaces(s[1..])
  }

  /** Reference definition: every maximal run of spaces in `s` shrunk to one space. */
  function Squeeze(s: string): (r: string)
    ensures |r| <= |s|
    ensures |s| > 0 ==> |r| > 0 && r[0] == s[0]
  {
    if |s| < 2 then s
    else if s[0] == ' ' && s[1] == ' ' then Squeeze(s[1..])
    else [s[0]] + Squeeze(s[1..])
  }

  lemma SqueezeCons(c: char, x: string)
    requires |x| > 0
    ensures Squeeze([c] + x) == if c == ' ' && x[0] == ' ' then Squeeze(x) else [c] + Squeeze(x)
  {
    assert ([c] + x)[1..] == x;
  }

  /** One pass of `replace("  ", " ")` does not change what the string squeezes to. */
  lemma {:induction false} SqueezeAfterReplace(s: string)
    ensures Squeeze(ReplaceDoubleSpaces(s)) == Squeeze(s)
  {
    if |s| >= 2 && s[0] == ' ' && s[1] == ' ' {
      var t := s[2..];
      assert s[1..] == [' '] + t;
      SqueezeAfterReplace(t);
      if t != [] {
        SqueezeCons(' ', ReplaceDoubleSpaces(t));
        SqueezeCons(' ', t);
      }
    } else if s != [] {
      var t := s[1..];
      assert s == [s[0]] + t;
      SqueezeAfterReplace(t);
      if t != [] {
        SqueezeCons(s[0], ReplaceDoubleSpaces(t));
        SqueezeCons(s[0], t);
      }
    }
  }

  /** A string without double spaces is its own squeeze. */
  lemma {:induction false} SqueezeFixesNoDoubleSpace(s: string)
    requires !HasDoubleSpace(s)
    ensures Squeeze(s) == s
  {
    if |s| >= 2 {
      SqueezeFixesNoDoubleSpace(s[1..]);
      assert s == [s[0]] + s[1..];
    }
  }

  /** The squeeze of any string has no double space left. */
  lemma {:induction false} SqueezeHasNoDoubleSpace(s: string)
    ensures !HasDoubleSpace(Squeeze(s))
  {
    if |s| >= 2 {
      SqueezeHasNoDoubleSpace(s[1..]);
      if !(s[0] == ' ' && s[1] == ' ') {
        var r := [s[0]] + Squeeze(s[1..]);
        assert r[1..] == Squeeze(s[1..]);
      }
    }
  }

  // ---------------------------------------------------------------------------
  // s.strip()

  /** The characters `str.strip()` removes (the ASCII ones of `str.isspace`). */
  predicate IsSpace(c: char)
  {
    c == ' ' || c == '\t' || c == '\n' || c == '\r' || c == '\U{0B}' || c == '\U{0C}'
    || ('\U{1C}' <= c <= '\U{1F}')
  }

  function StripLeft(s: string): (r: string)
    ensures |r| <= |s| && r == s[|s| - |r|..]
    ensures r != [] ==> !IsSpace(r[0])
    ensures forall i | 0 <= i < |s| - |r| :: IsSpace(s[i])
  {
    if s != [] && IsSpace(s[0]) then StripLeft(s[1..]) else s
  }

  function StripRight(s: string): (r: string)
    ensures |r| <= |s| && r == s[..|r|]
    ensures r != [] ==> !IsSpace(r[|r| - 1])
    ensures forall i | |r| <= i < |s| :: IsSpace(s[i])
  {
    if s != [] && IsSpace(s[|s| - 1]) then StripRight(s[..|s| - 1]) else s
  }

  /** `s.strip()`: `s` without its leading and trailing whitespace. */
  function Strip(s: string): (r: string)
  {
    StripRight(StripLeft(s))
  }

  /** The stripped string is a slice of the original. */
  lemma StripIsSlice(s: string) returns (a: nat, b: nat)
    ensures a <= b <= |s| && Strip(s) == s[a..b]
  {
    var l := StripLeft(s);
    var r := StripRight(l);
    a := |s| - |l|;
    b := a + |r|;
    assert l == s[a..];
    assert r == l[..|r|];
    assert s[a..][..|r|] == s[a..b];
  }

  /** Stripping keeps a string free of double spaces, and leaves no
      whitespace at either end. */
  lemma StripTrims(s: string)
    ensures !HasDoubleSpace(s) ==> !HasDoubleSpace(Strip(s))
    ensures Strip(s) != [] ==> !IsSpace(Strip(s)[0]) && !IsSpace(Strip(s)[|Strip(s)| - 1])
  {
    var a, b := StripIsSlice(s);
    if !HasDoubleSpace(s) {
      NoDoubleSpaceInSlice(s, a, b);
    }
    var l := StripLeft(s);
    var r := StripRight(l);
    if r != [] {
      assert r == l[..|r|];
      assert r[0] == l[0];
    }
  }
}
