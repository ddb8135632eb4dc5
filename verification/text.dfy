/** String helpers with the meaning the JavaScript built-ins give them:
    `trim`, `toLowerCase`, `startsWith`, `includes`, `substring`. */
module Text {

  /** The characters JavaScript's `String.prototype.trim` removes: the
      WhiteSpace and LineTerminator code points of ECMAScript. */
  predicate IsSpace(c: char) {
    || c == ' ' || c == '\t' || c == '\n' || c == '\r'
    || c == '\U{B}' || c == '\U{C}' || c == '\U{A0}' || c == '\U{FEFF}'
    || c == '\U{1680}' || ('\U{2000}' <= c <= '\U{200A}')
    || c == '\U{2028}' || c == '\U{2029}' || c == '\U{202F}' || c == '\U{205F}'
    || c == '\U{3000}'
  }

  /** Neither end of `s` is a space character. */
  predicate IsTrimmed(s: string) {
    s == [] || (!IsSpace(s[0]) && !IsSpace(s[|s| - 1]))
  }

  /** JavaScript `s.trim()`: drops the space characters at both ends. */
  function Trim(s: string): (r: string)
    ensures |r| <= |s|
    ensures IsTrimmed(r)
  {
    if s == [] then []
    else if IsSpace(s[0]) then Trim(s[1..])
    else if IsSpace(s[|s| - 1]) then Trim(s[..|s| - 1])
    else s
  }

  /** `Trim(s)` is the empty string: JavaScript treats `s.trim()` as falsy. */
  predicate IsBlank(s: string) {
    Trim(s) == []
  }

  /** The UTF-16 code units JavaScript stores for `c`: a character outside
      the Basic Multilingual Plane takes a surrogate pair. */
  function Utf16Units(c: char): nat {
    if c as int > 0xFFFF then 2 else 1
  }

  /** JavaScript `s.length`, which counts UTF-16 code units, not
      characters. */
  function Utf16Length(s: string): (r: nat)
    ensures |s| <= r <= 2 * |s|
    ensures r == 0 <==> s == []
  {
    if s == [] then 0 else Utf16Units(s[0]) + Utf16Length(s[1..])
  }

  /** Every character of `s` lies in the Basic Multilingual Plane. */
  predicate InBmp(s: string) {
    forall i :: 0 <= i < |s| ==> s[i] as int <= 0xFFFF
  }

  /** `s.length` counts the characters of `s` exactly when none of them
      needs a surrogate pair. */
  lemma {:induction false} BmpLength(s: string)
    ensures Utf16Length(s) == |s| <==> InBmp(s)
  {
    if s != [] {
      var t := s[1..];
      BmpLength(t);
      assert forall i :: 0 <= i < |t| ==> t[i] == s[i + 1];
      if InBmp(s) {
        assert InBmp(t);
      } else if s[0] as int <= 0xFFFF {
        assert !InBmp(t);
      }
    }
  }

  /** Trimming a string that has no space at either end changes nothing. */
  lemma TrimOfTrimmed(s: string)
    requires IsTrimmed(s)
    ensures Trim(s) == s
  {
  }

  /** Trimming twice is trimming once. */
  lemma TrimIdempotent(s: string)
    ensures Trim(Trim(s)) == Trim(s)
  {
    TrimOfTrimmed(Trim(s));
  }

  /** `t` is `s[i..j]` and everything cut away is space. */
  ghost predicate SpaceFramed(s: string, t: string, i: int, j: int) {
    0 <= i <= j <= |s| && t == s[i..j]
    && (forall k :: 0 <= k < i ==> IsSpace(s[k]))
    && (forall k :: j <= k < |s| ==> IsSpace(s[k]))
  }

  /** The trimmed string is a slice of the original with only space
      characters cut away on either side. */
  lemma {:induction false} TrimIsSlice(s: string) returns (i: int, j: int)
    ensures SpaceFramed(s, Trim(s), i, j)
  {
    if s == [] {
      i, j := 0, 0;
    } else if IsSpace(s[0]) {
      var t := s[1..];
      var i', j' := TrimIsSlice(t);
      i, j := i' + 1, j' + 1;
      assert t[i'..j'] == s[i..j];
      forall k | 0 <= k < i
        ensures IsSpace(s[k])
      {
        if k > 0 {
          assert s[k] == t[k - 1];
        }
      }
      forall k | j <= k < |s|
        ensures IsSpace(s[k])
      {
        assert s[k] == t[k - 1];
      }
    } else if IsSpace(s[|s| - 1]) {
      var t := s[..|s| - 1];
      i, j := TrimIsSlice(t);
      assert t[i..j] == s[i..j];
      forall k | j <= k < |s|
        ensures IsSpace(s[k])
      {
        if k < |t| {
          assert s[k] == t[k];
        }
      }
    } else {
      i, j := 0, |s|;
    }
  }

  /** A string is blank exactly when it consists of space characters. */
  lemma BlankMeansSpaces(s: string)
    ensures IsBlank(s) <==> forall k :: 0 <= k < |s| ==> IsSpace(s[k])
  {
    var i, j := TrimIsSlice(s);
    if IsBlank(s) {
      assert i == j;
    }
  }

  /** ASCII `toLowerCase`. */
  function LowerChar(c: char): char {
    if 'A' <= c <= 'Z' then (c as int + 32) as char else c
  }

  /** JavaScript `s.toLowerCase()`, restricted to the ASCII letters. */
  function ToLower(s: string): (r: string)
    ensures |r| == |s|
    ensures forall i :: 0 <= i < |s| ==> r[i] == LowerChar(s[i])
  {
    if s == [] then [] else [LowerChar(s[0])] + ToLower(s[1..])
  }

  /** `t` is the lower-case form of `s` when they agree letter by letter. */
  lemma LowerAgrees(s: string, t: string)
    requires |s| == |t| && forall i :: 0 <= i < |s| ==> LowerChar(s[i]) == t[i]
    ensures ToLower(s) == t
  {
  }

  /** JavaScript `s.startsWith(prefix)`. */
  predicate StartsWith(s: string, prefix: string) {
    |prefix| <= |s| && s[..|prefix|] == prefix
  }

  /** JavaScript `s.includes(t)`: `t` occurs in `s` at some position. */
  predicate Includes(s: string, t: string) {
    StartsWith(s, t) || (s != [] && Includes(s[1..], t))
  }

  /** JavaScript `s.substring(0, n)` for `n >= 0`. */
  function Take(s: string, n: nat): (r: string)
    ensures |r| == if n < |s| then n else |s|
    ensures r == s[..|r|]
  {
    if n < |s| then s[..n] else s
  }
}
