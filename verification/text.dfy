/** The two JavaScript string operations the search boxes use:
    `toLowerCase` (restricted to ASCII letters) and `includes`. */
module Text {

  /** Lower-cases one character: 'A'..'Z' become 'a'..'z', all else is kept. */
  function LowerChar(c: char): char
  {
    if 'A' <= c <= 'Z' then (c as int + 32) as char else c
  }

  /** `s.toLowerCase()`, character by character. */
  function ToLower(s: string): (r: string)
    ensures |r| == |s|
    ensures forall i :: 0 <= i < |s| ==> r[i] == LowerChar(s[i])
  {
    if s == [] then [] else [LowerChar(s[0])] + ToLower(s[1..])
  }

  /** `t` occurs in `s` starting at position `i`. */
  predicate OccursAt(s: string, t: string, i: int)
  {
    0 <= i && i + |t| <= |s| && s[i..i + |t|] == t
  }

  /** `t` occurs somewhere in `s`. */
  ghost predicate Occurs(s: string, t: string)
  {
    exists i :: OccursAt(s, t, i)
  }

  /** `s.includes(t)`: try every starting position from the left. */
  predicate Includes(s: string, t: string)
  {
    if |t| > |s| then false
    else if s[..|t|] == t then true
    else s != [] && Includes(s[1..], t)
  }

  /** `includes` is exactly "occurs at some position"; in particular the
      empty string is included in every string. */
  lemma {:induction false} IncludesIffOccurs(s: string, t: string)
    ensures Includes(s, t) <==> Occurs(s, t)
  {
    if |t| > |s| {
      assert forall i :: !OccursAt(s, t, i);
    } else if s[..|t|] == t {
      assert OccursAt(s, t, 0);
    } else {
      assert s != [];
      IncludesIffOccurs(s[1..], t);
      if i :| OccursAt(s[1..], t, i) {
        forall k | 0 <= k < |t|
          ensures s[i + 1..i + 1 + |t|][k] == t[k]
        {
          assert s[1..][i..i + |t|][k] == t[k];
        }
        assert s[i + 1..i + 1 + |t|] == t;
        assert OccursAt(s, t, i + 1);
      }
      if i :| OccursAt(s, t, i) {
        assert i != 0;
        forall k | 0 <= k < |t|
          ensures s[1..][i - 1..i - 1 + |t|][k] == t[k]
        {
          assert s[i..i + |t|][k] == t[k];
        }
        assert s[1..][i - 1..i - 1 + |t|] == t;
        assert OccursAt(s[1..], t, i - 1);
      }
    }
  }

  /** A found position is a witness for `includes`. */
  lemma IncludedAt(s: string, t: string, i: int)
    requires OccursAt(s, t, i)
    ensures Includes(s, t)
  {
    IncludesIffOccurs(s, t);
  }

  /** A string is not included where one of its characters never occurs. */
  lemma NotIncludedMissingChar(s: string, t: string, c: char)
    requires c in t && c !in s
    ensures !Includes(s, t)
  {
    IncludesIffOccurs(s, t);
  }
}
