/**
 * The few Python `str` operations the core relies on: `lower`, `upper`,
 * the `in` substring test, `split(c)[0]`, `rstrip(c)` and `strip()`.
 * Case mapping and whitespace are those of the ASCII range.
 */
module Text {

  function LowerChar(c: char): char {
    if 'A' <= c <= 'Z' then (c as int + 32) as char else c
  }

  function UpperChar(c: char): char {
    if 'a' <= c <= 'z' then (c as int - 32) as char else c
  }

  /** `s.lower()` */
  function Lower(s: string): (r: string)
    ensures |r| == |s|
    ensures forall i :: 0 <= i < |s| ==> r[i] == LowerChar(s[i])
  {
    seq(|s|, i requires 0 <= i < |s| => LowerChar(s[i]))
  }

  /** `s.upper()` */
  function Upper(s: string): (r: string)
    ensures |r| == |s|
    ensures forall i :: 0 <= i < |s| ==> r[i] == UpperChar(s[i])
  {
    seq(|s|, i requires 0 <= i < |s| => UpperChar(s[i]))
  }

  /** The characters `str.strip()` removes, restricted to ASCII. */
  predicate IsSpace(c: char) {
    c == ' ' || ('\t' <= c <= '\r') || ('\U{1C}' <= c <= '\U{1F}')
  }

  /** `part` occurs in `text` starting at offset `i`. */
  ghost predicate OccursAt(text: string, part: string, i: int) {
    0 <= i && i + |part| <= |text| && text[i..i + |part|] == part
  }

  /** `part in text` */
  function Contains(text: string, part: string): (r: bool)
    ensures r <==> exists i :: OccursAt(text, part, i)
    decreases |text|
  {
    if |part| <= |text| && text[..|part|] == part then
      assert OccursAt(text, part, 0);
      true
    else if text == [] then
      false
    else
      ContainsStep(text, part);
      Contains(text[1..], part)
  }

  /** When `part` is not a prefix of `text`, it occurs in `text` iff it occurs in `text[1..]`. */
  lemma ContainsStep(text: string, part: string)
    requires text != []
    requires !(|part| <= |text| && text[..|part|] == part)
    ensures (exists i :: OccursAt(text, part, i)) <==> (exists i :: OccursAt(text[1..], part, i))
  {
    forall i | OccursAt(text[1..], part, i)
      ensures OccursAt(text, part, i + 1)
    {
      assert text[1..][i..i + |part|] == text[i + 1..i + 1 + |part|];
    }
    forall i | OccursAt(text, part, i)
      ensures OccursAt(text[1..], part, i - 1)
    {
      assert i != 0;
      assert text[1..][i - 1..i - 1 + |part|] == text[i..i + |part|];
    }
  }

  /** `s.split(c)[0]`: the text before the first `c`, or all of `s` when it holds none. */
  function BeforeFirst(s: string, c: char): (r: string)
    ensures c !in r
    ensures r <= s
    ensures |r| < |s| ==> s[|r|] == c
    ensures c !in s ==> r == s
  {
    if s == [] then []
    else if s[0] == c then []
    else [s[0]] + BeforeFirst(s[1..], c)
  }

  /** `s.rstrip(c)` */
  function TrimRight(s: string, c: char): (r: string)
    ensures r <= s
    ensures r == [] || r[|r| - 1] != c
    ensures forall i :: |r| <= i < |s| ==> s[i] == c
  {
    if s == [] then []
    else if s[|s| - 1] == c then TrimRight(s[..|s| - 1], c)
    else s
  }

  /** `s.rstrip()`: drops trailing whitespace. */
  function TrimRightSpace(s: string): (r: string)
    ensures r <= s
    ensures r == [] || !IsSpace(r[|r| - 1])
    ensures forall i :: |r| <= i < |s| ==> IsSpace(s[i])
  {
    if s == [] then []
    else if IsSpace(s[|s| - 1]) then TrimRightSpace(s[..|s| - 1])
    else s
  }

  /** `s.lstrip()`: drops leading whitespace. */
  function TrimLeftSpace(s: string): (r: string)
    ensures |r| <= |s| && r == s[|s| - |r|..]
    ensures r == [] || !IsSpace(r[0])
    ensures forall i :: 0 <= i < |s| - |r| ==> IsSpace(s[i])
  {
    if s == [] then []
    else if IsSpace(s[0]) then TrimLeftSpace(s[1..])
    else s
  }

  /** `s.strip()` */
  function Strip(s: string): (r: string)
    ensures r == [] || (!IsSpace(r[0]) && !IsSpace(r[|r| - 1]))
    ensures exists i :: OccursAt(s, r, i)
              && (forall k :: 0 <= k < i ==> IsSpace(s[k]))
              && (forall k :: i + |r| <= k < |s| ==> IsSpace(s[k]))
  {
    var right := TrimRightSpace(s);
    var r := TrimLeftSpace(right);
    var i := |right| - |r|;
    assert s[i..i + |r|] == r;
    assert OccursAt(s, r, i);
    r
  }
}
