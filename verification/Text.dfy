/** Trimming, as `String.prototype.trim` does it. */
module Text {
  predicate IsSpace(c: char) {
    var n := c as int;
    9 <= n <= 13 || n == 32 || n == 0xA0 || n == 0x1680 || 0x2000 <= n <= 0x200A
    || n == 0x2028 || n == 0x2029 || n == 0x202F || n == 0x205F || n == 0x3000 || n == 0xFEFF
  }

  function Trim(s: string): string {
    if s == "" then s
    else if IsSpace(s[0]) then Trim(s[1..])
    else if IsSpace(s[|s| - 1]) then Trim(s[..|s| - 1])
    else s
  }

  predicate Trimmed(s: string) {
    Trim(s) == s
  }

  /** Trimming leaves nothing to trim. */
  lemma {:induction false} TrimTwice(s: string)
    ensures Trimmed(Trim(s)) && |Trim(s)| <= |s|
  {
    if s == "" {
    } else if IsSpace(s[0]) {
      TrimTwice(s[1..]);
    } else if IsSpace(s[|s| - 1]) {
      TrimTwice(s[..|s| - 1]);
    }
  }

  predicate AllSpace(s: string) {
    forall i | 0 <= i < |s| :: IsSpace(s[i])
  }

  lemma SpaceBefore(c: char, s: string)
    requires IsSpace(c) && AllSpace(s)
    ensures AllSpace([c] + s) && AllSpace(s + [c])
  {
  }

  /** What is left is the string between blanks, and neither starts nor ends with one. */
  lemma {:induction false} TrimMeans(s: string) returns (before: string, after: string)
    ensures s == before + Trim(s) + after && AllSpace(before) && AllSpace(after)
    ensures Trim(s) != "" ==> !IsSpace(Trim(s)[0]) && !IsSpace(Trim(s)[|Trim(s)| - 1])
    decreases |s|
  {
    hide IsSpace;
    hide AllSpace;
    if s != "" && IsSpace(s[0]) {
      var b;
      b, after := TrimMeans(s[1..]);
      SpaceBefore(s[0], b);
      before := [s[0]] + b;
      assert s == [s[0]] + s[1..] == [s[0]] + (b + Trim(s) + after) == before + Trim(s) + after;
    } else if s != "" && IsSpace(s[|s| - 1]) {
      var a;
      before, a := TrimMeans(s[..|s| - 1]);
      SpaceBefore(s[|s| - 1], a);
      after := a + [s[|s| - 1]];
      assert s == s[..|s| - 1] + [s[|s| - 1]] == before + Trim(s) + after;
    } else {
      before, after := "", "";
      NoSpace();
    }
  }

  lemma NoSpace()
    ensures AllSpace("")
  {
  }
}
