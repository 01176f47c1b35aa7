/** Trimming of strings, as both languages' libraries do it. */
module Text {

  function TrimLeft(s: string, drop: char -> bool): string {
    if s != [] && drop(s[0]) then TrimLeft(s[1..], drop) else s
  }

  function TrimRight(s: string, drop: char -> bool): string {
    if s != [] && drop(s[|s| - 1]) then TrimRight(s[..|s| - 1], drop) else s
  }

  lemma {:induction false} TrimRightEnds(s: string, drop: char -> bool)
    ensures var r := TrimRight(s, drop);
      && r <= s && (r != [] ==> !drop(r[|r| - 1])) && (r == s <==> s == [] || !drop(s[|s| - 1]))
      && forall i :: |r| <= i < |s| ==> drop(s[i])
  {
    if s != [] && drop(s[|s| - 1]) { TrimRightEnds(s[..|s| - 1], drop); }
  }

  lemma {:induction false} TrimLeftStarts(s: string, drop: char -> bool)
    ensures var r := TrimLeft(s, drop); var n := |s| - |r|;
      n >= 0 && r == s[n..] && (r != [] ==> !drop(r[0])) && forall i :: 0 <= i < n ==> drop(s[i])
  {
    if s != [] && drop(s[0]) { TrimLeftStarts(s[1..], drop); }
  }

  /** What trimming on both sides leaves is a stretch of the text, between characters to drop. */
  lemma TrimsToStretch(s: string, drop: char -> bool) returns (from: nat, to: nat)
    ensures from <= to <= |s| && TrimRight(TrimLeft(s, drop), drop) == s[from..to]
    ensures forall i :: 0 <= i < from || to <= i < |s| ==> drop(s[i])
    ensures from < to ==> !drop(s[from]) && !drop(s[to - 1])
  {
    var left := TrimLeft(s, drop);
    var core := TrimRight(left, drop);
    TrimLeftStarts(s, drop);
    TrimRightEnds(left, drop);
    from := |s| - |left|;
    to := from + |core|;
    assert s[from..to] == core;
    forall i | to <= i < |s| ensures drop(s[i]) { assert s[i] == left[i - from]; }
    if from < to { assert s[from] == left[0] == core[0] && s[to - 1] == core[|core| - 1]; }
  }
}
