/** The string helpers of the standard library that the code leans on. */
module Text {

  /** White space and line terminators, as trimming removes them. */
  predicate IsSpace(c: char) {
    || c in " \t\n\r"
    || c as int in {0x0B, 0x0C, 0xA0, 0x1680, 0x2028, 0x2029, 0x202F, 0x205F, 0x3000, 0xFEFF}
    || 0x2000 <= c as int <= 0x200A
  }

  function TrimStart(s: string): string {
    if s != "" && IsSpace(s[0]) then TrimStart(s[1..]) else s
  }

  function TrimEnd(s: string): string {
    if s != "" && IsSpace(s[|s| - 1]) then TrimEnd(s[..|s| - 1]) else s
  }

  function Trim(s: string): string {
    TrimEnd(TrimStart(s))
  }

  /** A string without outer white space is its own trim. */
  lemma TrimNothing(s: string)
    requires s == "" || (!IsSpace(s[0]) && !IsSpace(s[|s| - 1]))
    ensures Trim(s) == s
  {
  }

  /** Trimming takes off white space on both sides, and nothing else. */
  lemma {:induction false} TrimStrips(before: string, core: string, after: string)
    requires forall c :: c in before || c in after ==> IsSpace(c)
    requires core != "" && !IsSpace(core[0]) && !IsSpace(core[|core| - 1])
    ensures Trim(before + core + after) == core
  {
    StartStrips(before, core + after);
    assert before + core + after == before + (core + after);
    EndStrips(core, after);
  }

  lemma {:induction false} StartStrips(before: string, rest: string)
    requires (forall c :: c in before ==> IsSpace(c)) && rest != "" && !IsSpace(rest[0])
    ensures TrimStart(before + rest) == rest
  {
    if before == "" {
      assert before + rest == rest;
    } else {
      assert (before + rest)[1..] == before[1..] + rest;
      StartStrips(before[1..], rest);
    }
  }

  lemma {:induction false} EndStrips(core: string, after: string)
    requires (forall c :: c in after ==> IsSpace(c)) && core != "" && !IsSpace(core[|core| - 1])
    ensures TrimEnd(core + after) == core
  {
    if after == "" {
      assert core + after == core;
    } else {
      var s := core + after;
      assert s[..|s| - 1] == core + after[..|after| - 1];
      EndStrips(core, after[..|after| - 1]);
    }
  }

  function LowerChar(c: char): char {
    if 'A' <= c <= 'Z' then c - 'A' + 'a' else c
  }

  /** Lower case, for the ASCII letters that occur in hexadecimal. */
  function Lower(s: string): (r: string)
    ensures |r| == |s| && forall i :: 0 <= i < |s| ==> r[i] == LowerChar(s[i])
  {
    seq(|s|, i requires 0 <= i < |s| => LowerChar(s[i]))
  }

  /** What lower case is, letter by letter; doing it twice changes nothing more. */
  lemma {:induction false} LowerMeans(s: string, i: nat)
    requires i < |s|
    ensures Lower(s)[i] as int == if 'A' <= s[i] <= 'Z' then s[i] as int + 32 else s[i] as int
    ensures Lower(Lower(s)) == Lower(s)
  {
  }

  predicate IsLowerHex(c: char) {
    '0' <= c <= '9' || 'a' <= c <= 'f'
  }

  /** Canonical account form: `0x` and forty lower-case hexadecimal digits. */
  predicate IsAddress(s: string) {
    |s| == 42 && s[..2] == "0x" && forall i :: 2 <= i < 42 ==> IsLowerHex(s[i])
  }
}
