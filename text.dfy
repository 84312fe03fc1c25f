/**
 * The JavaScript string operations the controller relies on, over Dafny strings
 * (sequences of Unicode scalar values): `includes`, `trim` and `length`, which
 * counts UTF-16 code units rather than characters.
 */
module Text {

  /** Does `sub` occur in `s` starting at offset `i`? */
  predicate OccursAt(s: string, sub: string, i: int) {
    0 <= i && i + |sub| <= |s| && s[i..i + |sub|] == sub
  }

  predicate StartsWith(s: string, prefix: string) {
    |prefix| <= |s| && s[..|prefix|] == prefix
  }

  /** `s.includes(sub)`: searches every offset, left to right. */
  function Contains(s: string, sub: string): bool
    decreases |s|
  {
    StartsWith(s, sub) || (|s| > 0 && Contains(s[1..], sub))
  }

  /** `Contains` finds `sub` exactly when it occurs at some offset. */
  lemma {:induction false} ContainsIffOccurs(s: string, sub: string)
    ensures Contains(s, sub) <==> exists i :: OccursAt(s, sub, i)
    decreases |s|
  {
    if StartsWith(s, sub) {
      assert OccursAt(s, sub, 0);
    } else if |s| > 0 {
      ContainsIffOccurs(s[1..], sub);
      forall j | OccursAt(s[1..], sub, j)
        ensures OccursAt(s, sub, j + 1)
      {
        assert s[1..][j..j + |sub|] == s[j + 1..j + 1 + |sub|];
      }
      forall i | OccursAt(s, sub, i)
        ensures OccursAt(s[1..], sub, i - 1)
      {
        assert i != 0;
        assert s[1..][i - 1..i - 1 + |sub|] == s[i..i + |sub|];
      }
    }
  }

  /**
   * The characters `String.prototype.trim` removes: the ECMAScript WhiteSpace
   * (TAB, VT, FF, SP, NBSP, ZWNBSP and every Unicode space separator) and
   * LineTerminator (LF, CR, LS, PS) code points.
   */
  predicate IsSpace(c: char) {
    var n := c as int;
    n == 0x09 || n == 0x0A || n == 0x0B || n == 0x0C || n == 0x0D || n == 0x20 ||
    n == 0xA0 || n == 0x1680 || (0x2000 <= n <= 0x200A) || n == 0x2028 || n == 0x2029 ||
    n == 0x202F || n == 0x205F || n == 0x3000 || n == 0xFEFF
  }

  ghost predicate AllSpace(s: string) {
    forall i :: 0 <= i < |s| ==> IsSpace(s[i])
  }

  /** Drops the leading white space: what remains is a suffix of `s` that does not start with a space. */
  function TrimStart(s: string): (r: string)
    ensures |r| <= |s| && r == s[|s| - |r|..]
    ensures AllSpace(s[..|s| - |r|])
    ensures r == [] || !IsSpace(r[0])
  {
    if s != [] && IsSpace(s[0]) then
      var r := TrimStart(s[1..]);
      var spaces := s[..|s| - |r|];
      assert AllSpace(spaces) by {
        forall i | 0 <= i < |spaces|
          ensures IsSpace(spaces[i])
        {
          if i > 0 {
            assert spaces[i] == s[1..][..|s| - 1 - |r|][i - 1];
          }
        }
      }
      r
    else s
  }

  /** Drops the trailing white space: what remains is a prefix of `s` that does not end with a space. */
  function TrimEnd(s: string): (r: string)
    ensures |r| <= |s| && r == s[..|r|]
    ensures AllSpace(s[|r|..])
    ensures r == [] || !IsSpace(r[|r| - 1])
  {
    if s != [] && IsSpace(s[|s| - 1]) then
      var r := TrimEnd(s[..|s| - 1]);
      var spaces := s[|r|..];
      assert AllSpace(spaces) by {
        forall i | 0 <= i < |spaces|
          ensures IsSpace(spaces[i])
        {
          if i < |spaces| - 1 {
            assert spaces[i] == s[..|s| - 1][|r|..][i];
          }
        }
      }
      r
    else s
  }

  /**
   * `s.trim()`: what is left once all white space at both ends is removed. Either
   * nothing is left or it begins and ends with a non-space character.
   */
  function Trim(s: string): (r: string)
    ensures |r| <= |s|
    ensures r == [] || (!IsSpace(r[0]) && !IsSpace(r[|r| - 1]))
  {
    TrimEnd(TrimStart(s))
  }

  /** The trimmed string is the slice of `s` between an all-space prefix and an all-space suffix. */
  lemma TrimIsSlice(s: string)
    ensures exists i, j :: 0 <= i <= j <= |s| && Trim(s) == s[i..j] && AllSpace(s[..i]) && AllSpace(s[j..])
  {
    var t := TrimStart(s);
    var r := TrimEnd(t);
    var i := |s| - |t|;
    assert r == s[i..i + |r|];
    assert s[i + |r|..] == t[|r|..];
    assert AllSpace(s[..i]) && AllSpace(s[i + |r|..]);
  }

  /** A string with no space at its start is its own `TrimStart`. */
  lemma TrimStartNoOp(s: string)
    requires s == [] || !IsSpace(s[0])
    ensures TrimStart(s) == s
  {
  }

  /** A string with no space at its end is its own `TrimEnd`. */
  lemma TrimEndNoOp(s: string)
    requires s == [] || !IsSpace(s[|s| - 1])
    ensures TrimEnd(s) == s
  {
  }

  /** Trimming twice is trimming once. */
  lemma TrimIdempotent(s: string)
    ensures Trim(Trim(s)) == Trim(s)
  {
    var r := Trim(s);
    TrimStartNoOp(r);
    TrimEndNoOp(r);
  }

  /** A string trims to nothing exactly when it is all white space. */
  lemma {:induction false} TrimEmptyIffAllSpace(s: string)
    ensures Trim(s) == [] <==> AllSpace(s)
  {
    TrimIsSlice(s);
    if AllSpace(s) {
      TrimStartAllSpace(s);
    }
  }

  lemma {:induction false} TrimStartAllSpace(s: string)
    requires AllSpace(s)
    ensures TrimStart(s) == []
    decreases |s|
  {
    if s != [] {
      TrimStartAllSpace(s[1..]);
    }
  }

  /** The UTF-16 weight of one character: two code units above the Basic Multilingual Plane. */
  function CodeUnits(c: char): nat {
    if c as int > 0xFFFF then 2 else 1
  }

  /** JavaScript's `s.length`: the number of UTF-16 code units of `s`. */
  function Utf16Length(s: string): (n: nat)
    ensures |s| <= n <= 2 * |s|
    ensures (forall i :: 0 <= i < |s| ==> s[i] as int <= 0xFFFF) ==> n == |s|
  {
    if s == [] then 0 else CodeUnits(s[0]) + Utf16Length(s[1..])
  }

  /** A single character is one code unit, or two above the Basic Multilingual Plane. */
  lemma Utf16LengthOfOne(c: char)
    ensures Utf16Length([c]) == if c as int > 0xFFFF then 2 else 1
  {
    assert [c][1..] == [];
  }

  /** The length of a concatenation is the sum of the lengths. */
  lemma {:induction false} Utf16LengthAppend(s: string, t: string)
    ensures Utf16Length(s + t) == Utf16Length(s) + Utf16Length(t)
    decreases |s|
  {
    if s == [] {
      assert s + t == t;
    } else {
      assert (s + t)[0] == s[0] && (s + t)[1..] == s[1..] + t;
      Utf16LengthAppend(s[1..], t);
    }
  }

  /** A character outside the Basic Multilingual Plane counts twice, alone or after other text. */
  lemma EmojiCountsTwice()
    ensures Utf16Length("\U{1F600}") == 2
    ensures Utf16Length("Hi \U{1F600}") == 5
  {
    Utf16LengthOfOne('\U{1F600}');
    Utf16LengthAppend("Hi ", "\U{1F600}");
    assert "Hi " + "\U{1F600}" == "Hi \U{1F600}";
  }
}
