/**
 * Choosing the label output and the probability output among a session's
 * declared output names (a stream `filter` / `findFirst` / `orElse`).
 */
module OutputNames {
  import opened Wrappers

  /** ASCII upper-case letters become lower-case; every other character is kept. */
  function LowerChar(c: char): char
  {
    if 'A' <= c <= 'Z' then (c as int - 'A' as int + 'a' as int) as char else c
  }

  /** `String.toLowerCase()`, restricted to ASCII letters. */
  function ToLower(s: string): (r: string)
    ensures |r| == |s|
    ensures forall i :: 0 <= i < |s| ==> r[i] == LowerChar(s[i])
  {
    if s == [] then [] else [LowerChar(s[0])] + ToLower(s[1..])
  }

  /** `sub` occurs in `s` starting at position `i`. */
  ghost predicate OccursAt(sub: string, s: string, i: int)
  {
    0 <= i <= |s| - |sub| && s[i..i + |sub|] == sub
  }

  /** `sub` occurs in `s` at some position. */
  ghost predicate IsSubstring(sub: string, s: string)
  {
    exists i :: OccursAt(sub, s, i)
  }

  /** `String.contains`. */
  function Contains(s: string, sub: string): (b: bool)
    ensures b <==> IsSubstring(sub, s)
    decreases |s|
  {
    if |s| < |sub| then false
    else if s[..|sub|] == sub then
      assert OccursAt(sub, s, 0);
      true
    else
      var b := Contains(s[1..], sub);
      assert b ==> IsSubstring(sub, s) by {
        if b {
          var i :| OccursAt(sub, s[1..], i);
          assert s[i + 1..i + 1 + |sub|] == s[1..][i..i + |sub|];
          assert OccursAt(sub, s, i + 1);
        }
      }
      assert IsSubstring(sub, s) ==> b by {
        if IsSubstring(sub, s) {
          var i :| OccursAt(sub, s, i);
          assert i != 0;
          assert s[1..][i - 1..i - 1 + |sub|] == s[i..i + |sub|];
          assert OccursAt(sub, s[1..], i - 1);
        }
      }
      b
  }

  /** The lambda `n -> n.toLowerCase().contains(key)`. */
  predicate Mentions(name: string, key: string)
  {
    Contains(ToLower(name), key)
  }

  /** `filter(n -> Mentions(n, key)).findFirst()`, as the index of the name found. */
  function FirstMention(names: seq<string>, key: string): (r: Option<nat>)
    ensures r.Some? ==> r.value < |names| && Mentions(names[r.value], key)
    ensures r.Some? ==> forall j :: 0 <= j < r.value ==> !Mentions(names[j], key)
    ensures r.None? <==> forall j :: 0 <= j < |names| ==> !Mentions(names[j], key)
  {
    if |names| == 0 then None
    else if Mentions(names[0], key) then Some(0)
    else
      match FirstMention(names[1..], key)
      case None => None
      case Some(i) => Some(i + 1)
  }

  /**
   * The label output name: the first declared name mentioning "label", else the
   * first declared name. None stands for the `NoSuchElementException` that
   * `iterator().next()` throws on an empty name set.
   */
  function LabelOutputName(names: seq<string>): (r: Option<string>)
    ensures r.None? <==> |names| == 0
    ensures r.Some? && (exists i :: 0 <= i < |names| && Mentions(names[i], "label")) ==>
      exists i :: 0 <= i < |names| && names[i] == r.value && Mentions(names[i], "label")
        && forall j :: 0 <= j < i ==> !Mentions(names[j], "label")
    ensures r.Some? && (forall i :: 0 <= i < |names| ==> !Mentions(names[i], "label")) ==>
      r.value == names[0]
  {
    if |names| == 0 then None
    else
      match FirstMention(names, "label")
      case Some(i) => Some(names[i])
      case None => Some(names[0])
  }

  /** The probability output name: the first declared name mentioning "prob", or none (null). */
  function ProbOutputName(names: seq<string>): (r: Option<string>)
    ensures r.None? <==> forall i :: 0 <= i < |names| ==> !Mentions(names[i], "prob")
    ensures r.Some? ==>
      exists i :: 0 <= i < |names| && names[i] == r.value && Mentions(names[i], "prob")
        && forall j :: 0 <= j < i ==> !Mentions(names[j], "prob")
  {
    match FirstMention(names, "prob")
    case Some(i) => Some(names[i])
    case None => None
  }
}
