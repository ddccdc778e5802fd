/**
 * The string operations `parse_arguments` uses to cut a token `name=value`
 * at its first `=`: `std::string::find`, `substr` and `erase`, with their
 * unsigned 64-bit `size_type` arithmetic written out, `npos` included.
 */
module Tokens {
  import opened Base

  /** `std::string::size_type` is a 64-bit unsigned integer. */
  type Size = UInt64

  /** `std::string::npos`, the largest `size_type`, which `find` returns on a miss. */
  const NPOS: nat := TWO_TO_THE_64 - 1

  /** A `std::string`: its length never reaches `max_size()`, which is below `npos`. */
  type CppString = s: string | |s| < NPOS

  /**
   * Addition of two `size_type` values, which wraps modulo 2^64: as both
   * are below 2^64, at most one modulus comes off.
   */
  function SizeAdd(a: Size, b: Size): (r: Size)
    ensures (r - a - b) % 0x1_0000_0000_0000_0000 == 0
  {
    if a + b < TWO_TO_THE_64 then a + b else a + b - TWO_TO_THE_64
  }

  /** `s.find(c)`: the index of the first occurrence of `c`, or `npos` when there is none. */
  function Find(s: CppString, c: char): (r: Size)
    ensures r == NPOS <==> c !in s
    ensures r != NPOS ==> r < |s| && s[r] == c && c !in s[..r]
  {
    if |s| == 0 then NPOS
    else if s[0] == c then 0
    else
      var r := Find(s[1..], c);
      if r == NPOS then NPOS
      else
        assert s[1..][..r] == s[1..r + 1];
        assert s[..r + 1] == [s[0]] + s[1..][..r];
        r + 1
  }

  /** `s.substr(pos, n)`: at most `n` characters starting at `pos` (the caller keeps `pos <= s.size()`). */
  function Substr(s: CppString, pos: Size, n: Size): (r: CppString)
    requires pos <= |s|
    ensures |r| <= n && pos + |r| <= |s| && r == s[pos..pos + |r|]
    ensures |r| < n ==> pos + |r| == |s|
  {
    if n < |s| - pos then s[pos..pos + n] else s[pos..]
  }

  /** `s.erase(pos, n)`: `s` without at most `n` characters starting at `pos`. */
  function Erase(s: CppString, pos: Size, n: Size): (r: CppString)
    requires pos <= |s|
    ensures pos <= |r| <= |s|
    ensures var gone := |s| - |r|;
            gone <= n && r == s[..pos] + s[pos + gone..] && (gone < n ==> pos + gone == |s|)
  {
    if n < |s| - pos then s[..pos] + s[pos + n..] else s[..pos]
  }

  /**
   * A token cut the way `parse_arguments` cuts it: the key is
   * `s.substr(0, s.find("="))` and the value `s.erase(0, s.find("=") + 1)`.
   * With no `=`, `find` yields `npos`, `npos + 1` wraps to 0, and both the
   * key and the value are the whole token.
   */
  function SplitToken(s: CppString): (r: (CppString, CppString))
    ensures '=' in s ==> s == r.0 + "=" + r.1 && '=' !in r.0
    ensures '=' !in s ==> r.0 == s && r.1 == s
  {
    var at := Find(s, '=');
    var key := Substr(s, 0, at);
    var value := Erase(s, 0, SizeAdd(at, 1));
    if at != NPOS then
      assert key == s[..at];
      assert SizeAdd(at, 1) == at + 1;
      assert value == s[at + 1..];
      assert s == s[..at] + "=" + s[at + 1..];
      (key, value)
    else
      assert key == s;
      assert SizeAdd(at, 1) == 0;
      assert value == s;
      (key, value)
  }

  /** The key of a token: everything before its first `=`, or all of it. */
  function KeyOf(s: CppString): CppString
  {
    SplitToken(s).0
  }

  /** The value of a token: everything after its first `=`, or all of it. */
  function ValueOf(s: CppString): CppString
  {
    SplitToken(s).1
  }

  /**
   * Joining a key without `=` to any value and cutting the token again gives
   * back both parts: only the first `=` separates, so the value may hold more.
   */
  lemma {:induction false} SplitJoin(k: string, v: string)
    requires '=' !in k
    requires |k| + 1 + |v| < NPOS
    ensures SplitToken(k + "=" + v) == (k, v)
  {
    var s: CppString := k + "=" + v;
    var (k', v') := SplitToken(s);
    assert s[|k|] == '=';
    assert '=' in s;
    assert s == k' + "=" + v';
    assert k' == s[..|k|] == k;
    assert v' == s[|k| + 1..] == v;
  }
}
