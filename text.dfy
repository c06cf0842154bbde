/**
 * The two Python string methods the core relies on, restricted to ASCII:
 * `str.lower()` and `str.strip()` with no argument.
 */
module Text {

  function LowerChar(c: char): char {
    if 'A' <= c <= 'Z' then (c as int + 32) as char else c
  }

  /** `s.lower()` on ASCII letters; every other character is kept. */
  function LowerAscii(s: string): (r: string)
    ensures |r| == |s|
    ensures forall i :: 0 <= i < |s| ==> r[i] == LowerChar(s[i])
  {
    if s == [] then [] else [LowerChar(s[0])] + LowerAscii(s[1..])
  }

  /** A character `str.isspace()` accepts, within ASCII: tab to carriage return, 0x1C to 0x1F, and space. */
  predicate IsSpace(c: char) {
    var n := c as int;
    n == 32 || 9 <= n <= 13 || 28 <= n <= 31
  }

  /** Every character is white space (the empty string included). */
  predicate IsBlank(s: string) {
    forall i :: 0 <= i < |s| ==> IsSpace(s[i])
  }

  function TrimStart(s: string): string {
    if |s| > 0 && IsSpace(s[0]) then TrimStart(s[1..]) else s
  }

  function TrimEnd(s: string): string {
    if |s| > 0 && IsSpace(s[|s| - 1]) then TrimEnd(s[..|s| - 1]) else s
  }

  /** `s.strip()`: white space removed from both ends. */
  function Strip(s: string): string {
    TrimEnd(TrimStart(s))
  }

  lemma {:induction false} TrimStartEmpty(s: string)
    ensures TrimStart(s) == [] <==> IsBlank(s)
    ensures TrimStart(s) != [] ==> !IsSpace(TrimStart(s)[0])
    decreases |s|
  {
    if |s| > 0 && IsSpace(s[0]) {
      TrimStartEmpty(s[1..]);
      if IsBlank(s[1..]) {
        forall i | 0 <= i < |s| ensures IsSpace(s[i]) {
          if i > 0 { assert s[i] == s[1..][i - 1]; }
        }
      }
      if IsBlank(s) {
        forall i | 0 <= i < |s| - 1 ensures IsSpace(s[1..][i]) {
          assert s[1..][i] == s[i + 1];
        }
      }
    }
  }

  lemma {:induction false} TrimEndEmpty(s: string)
    ensures TrimEnd(s) == [] <==> IsBlank(s)
    decreases |s|
  {
    if |s| > 0 && IsSpace(s[|s| - 1]) {
      var t := s[..|s| - 1];
      TrimEndEmpty(t);
      if IsBlank(t) {
        forall i | 0 <= i < |s| ensures IsSpace(s[i]) {
          if i < |s| - 1 { assert s[i] == t[i]; }
        }
      }
      if IsBlank(s) {
        forall i | 0 <= i < |t| ensures IsSpace(t[i]) {
          assert t[i] == s[i];
        }
      }
    } else if |s| > 0 {
      assert !IsSpace(s[|s| - 1]);
    }
  }

  /** `not s.strip()` holds exactly when the string is all white space. */
  lemma StripEmptyIffBlank(s: string)
    ensures Strip(s) == [] <==> IsBlank(s)
  {
    var t := TrimStart(s);
    TrimStartEmpty(s);
    TrimEndEmpty(t);
    if t != [] {
      assert !IsSpace(t[0]);
      assert !IsBlank(t);
    }
  }
}
