/**
 * The PHP string built-ins the gateway client relies on, over `string`
 * (PHP strings are byte strings; here each byte is one `char`).
 */
module PhpString {

  /** PHP `empty()` on a string: both "" and "0" count as empty (and as false for `?:` and `if`). */
  predicate IsEmpty(s: string) {
    s == "" || s == "0"
  }

  /** The characters PHP `trim` strips by default: space, tab, LF, CR, NUL and vertical tab. */
  predicate IsTrimChar(c: char) {
    c == ' ' || c == '\t' || c == '\n' || c == '\r' || c == '\0' || c == '\U{000B}'
  }

  /** `ltrim($s)`: drops the leading trim characters, and only those. */
  function TrimLeft(s: string): (r: string)
    ensures |r| <= |s|
    ensures r != [] ==> !IsTrimChar(r[0])
  {
    if s != [] && IsTrimChar(s[0]) then TrimLeft(s[1..]) else s
  }

  /** `rtrim($s)`: drops the trailing trim characters, and only those. */
  function TrimRight(s: string): (r: string)
    ensures |r| <= |s| && r == s[..|r|]
    ensures r != [] ==> !IsTrimChar(r[|r| - 1])
  {
    if s != [] && IsTrimChar(s[|s| - 1]) then TrimRight(s[..|s| - 1]) else s
  }

  /**
   * `trim($s)`: drops the trim characters at both ends, so the result neither
   * starts nor ends with one, and a string that already does not is unchanged.
   */
  function Trim(s: string): (r: string)
    ensures |r| <= |s|
    ensures r != [] ==> !IsTrimChar(r[0]) && !IsTrimChar(r[|r| - 1])
    ensures s != [] && !IsTrimChar(s[0]) && !IsTrimChar(s[|s| - 1]) ==> r == s
  {
    TrimRight(TrimLeft(s))
  }

  /** `ltrim` keeps a suffix and drops only trim characters before it. */
  lemma {:induction false} TrimLeftDrops(s: string)
    ensures TrimLeft(s) == s[|s| - |TrimLeft(s)|..]
    ensures forall i :: 0 <= i < |s| - |TrimLeft(s)| ==> IsTrimChar(s[i])
  {
    if s != [] && IsTrimChar(s[0]) {
      TrimLeftDrops(s[1..]);
    }
  }

  /** `rtrim` keeps a prefix and drops only trim characters after it. */
  lemma {:induction false} TrimRightDrops(s: string)
    ensures forall i :: |TrimRight(s)| <= i < |s| ==> IsTrimChar(s[i])
  {
    if s != [] && IsTrimChar(s[|s| - 1]) {
      TrimRightDrops(s[..|s| - 1]);
    }
  }

  /** `trim` keeps a middle slice and what it drops is a run of trim characters at each end. */
  lemma TrimOnlyEnds(s: string)
    ensures exists k, l :: 0 <= k <= l <= |s| && Trim(s) == s[k..l] &&
                           forall i :: 0 <= i < k || l <= i < |s| ==> IsTrimChar(s[i])
  {
    var left := TrimLeft(s);
    TrimLeftDrops(s);
    TrimRightDrops(left);
    var k := |s| - |left|;
    var l := k + |Trim(s)|;
    assert Trim(s) == s[k..l];
    assert forall i :: l <= i < |s| ==> s[i] == left[i - k];
  }

  /** `str_starts_with($s, $prefix)`. */
  predicate StartsWith(s: string, prefix: string) {
    |prefix| <= |s| && s[..|prefix|] == prefix
  }

  /** `implode($sep, $parts)`: the partner of `Explode`. */
  function Implode(parts: seq<string>, sep: char): string
    requires |parts| >= 1
  {
    if |parts| == 1 then parts[0] else parts[0] + [sep] + Implode(parts[1..], sep)
  }

  /**
   * `explode($sep, $s)` for a one-character separator: the pieces between
   * separators, always at least one (the empty string explodes to [""]).
   */
  function Explode(s: string, sep: char): (parts: seq<string>)
    ensures |parts| >= 1
  {
    if s == [] then [""]
    else
      var rest := Explode(s[1..], sep);
      if s[0] == sep then [""] + rest
      else [[s[0]] + rest[0]] + rest[1..]
  }

  /** No piece of an exploded string holds the separator. */
  lemma {:induction false} ExplodePiecesClean(s: string, sep: char)
    ensures forall i :: 0 <= i < |Explode(s, sep)| ==> sep !in Explode(s, sep)[i]
  {
    if s != [] {
      ExplodePiecesClean(s[1..], sep);
    }
  }

  /** Exploding and imploding on the same separator gives back the original string. */
  lemma {:induction false} ImplodeExplode(s: string, sep: char)
    ensures Implode(Explode(s, sep), sep) == s
  {
    if s != [] {
      var rest := Explode(s[1..], sep);
      ImplodeExplode(s[1..], sep);
      if s[0] == sep {
        assert Explode(s, sep)[1..] == rest;
      } else if |rest| > 1 {
        assert Explode(s, sep)[1..] == rest[1..];
        assert Implode(rest, sep) == rest[0] + [sep] + Implode(rest[1..], sep);
      }
    }
  }

  /** A string without the separator explodes to itself. */
  lemma {:induction false} ExplodeWithoutSeparator(s: string, sep: char)
    requires sep !in s
    ensures Explode(s, sep) == [s]
  {
    if s != [] {
      ExplodeWithoutSeparator(s[1..], sep);
      assert [s[0]] + s[1..] == s;
    }
  }

  /** The first piece of `a + [sep] + b`, when `a` holds no separator, is `a`. */
  lemma {:induction false} ExplodeFirstPiece(a: string, b: string, sep: char)
    requires sep !in a
    ensures Explode(a + [sep] + b, sep) == [a] + Explode(b, sep)
  {
    if a == [] {
      assert (a + [sep] + b)[1..] == b;
    } else {
      assert (a + [sep] + b)[1..] == a[1..] + [sep] + b;
      ExplodeFirstPiece(a[1..], b, sep);
      assert [a[0]] + a[1..] == a;
    }
  }

  /** `rtrim($s, $c)`: drops every trailing `c`. */
  function RTrimChar(s: string, c: char): (r: string)
    ensures |r| <= |s| && r == s[..|r|]
    ensures forall i :: |r| <= i < |s| ==> s[i] == c
    ensures r != [] ==> r[|r| - 1] != c
  {
    if s != [] && s[|s| - 1] == c then RTrimChar(s[..|s| - 1], c) else s
  }

  /** The upper-case letter of an ASCII lower-case letter; any other character unchanged. */
  function UpperAscii(c: char): (u: char)
    ensures 'a' <= c <= 'z' ==> 'A' <= u <= 'Z' && u as int == c as int - 32
    ensures !('a' <= c <= 'z') ==> u == c
  {
    if 'a' <= c <= 'z' then (c as int - 32) as char else c
  }

  /** `ucfirst($s)`: upper-cases the first character (ASCII letters only: locale-independent, as in PHP 8.2 and later). */
  function Ucfirst(s: string): (r: string)
    ensures |r| == |s|
    ensures s != [] ==> r[0] == UpperAscii(s[0]) && r[1..] == s[1..]
  {
    if s == [] then s else [UpperAscii(s[0])] + s[1..]
  }
}
