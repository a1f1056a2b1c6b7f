/** Keyboard input: held keys are stored under their lower-cased name. */
module Input {

  /** `toLowerCase` on one character, for the ASCII letters. */
  function LowerChar(c: char): char {
    if 'A' <= c <= 'Z' then (c as int + 32) as char else c
  }

  /** `toLowerCase` on a key name, character by character. */
  function Lower(s: string): (r: string)
    ensures |r| == |s|
    ensures forall i :: 0 <= i < |s| ==> r[i] == LowerChar(s[i])
    ensures forall i :: 0 <= i < |r| ==> !('A' <= r[i] <= 'Z')
  {
    if s == [] then [] else [LowerChar(s[0])] + Lower(s[1..])
  }

  /** Lower-casing twice is lower-casing once. */
  lemma LowerIdempotent(s: string)
    ensures Lower(Lower(s)) == Lower(s)
  {
  }

  /** The change to the facing target a key press asks for, in eighths of a turn:
      `r` turns one step one way, `t` one step back. */
  function RotationDelta(key: string): (d: int)
    ensures d == 1 <==> Lower(key) == "r"
    ensures d == -1 <==> Lower(key) == "t"
    ensures d == 0 <==> Lower(key) != "r" && Lower(key) != "t"
  {
    if Lower(key) == "r" then 1 else if Lower(key) == "t" then -1 else 0
  }

  /** Pressing any key named `r` and then any key named `t`, in either case, asks for no
      net rotation. */
  lemma RotationKeysCancel(r: string, t: string)
    requires Lower(r) == "r" && Lower(t) == "t"
    ensures RotationDelta(r) + RotationDelta(t) == 0
  {
  }
}
