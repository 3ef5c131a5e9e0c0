/** The string operations the core relies on: `str.lower`, `sep.join` and `sub in s`. */
module Text {

  /** Lower-casing of one character; only ASCII letters are mapped. */
  function LowerChar(c: char): char {
    if 'A' <= c <= 'Z' then (c as int + 32) as char else c
  }

  /** `s.lower()` restricted to ASCII letters. */
  function Lower(s: string): (r: string)
    ensures |r| == |s|
    ensures forall i :: 0 <= i < |s| ==> r[i] == LowerChar(s[i])
  {
    seq(|s|, i requires 0 <= i < |s| => LowerChar(s[i]))
  }

  /** A string with no upper-case ASCII letter is its own lower-casing. */
  lemma LowerOfLower(s: string)
    requires forall i :: 0 <= i < |s| ==> !('A' <= s[i] <= 'Z')
    ensures Lower(s) == s
  {
  }

  /** `sep.join(parts)`. */
  function Join(sep: string, parts: seq<string>): string
    decreases |parts|
  {
    if |parts| == 0 then ""
    else if |parts| == 1 then parts[0]
    else parts[0] + sep + Join(sep, parts[1..])
  }

  /** Where `parts[i]` starts inside `Join(sep, parts)`. */
  function Offset(sep: string, parts: seq<string>, i: nat): nat
    requires i <= |parts|
    decreases i
  {
    if i == 0 then 0 else Offset(sep, parts, i - 1) + |parts[i - 1]| + |sep|
  }

  /** Shifting the parts by one moves every offset by the first part and a separator. */
  lemma {:induction false} OffsetShift(sep: string, parts: seq<string>, i: nat)
    requires 1 <= i <= |parts|
    ensures Offset(sep, parts, i) == |parts[0]| + |sep| + Offset(sep, parts[1..], i - 1)
    decreases i
  {
    if i > 1 {
      OffsetShift(sep, parts, i - 1);
    }
  }

  /** Length of the joined string: every part plus one separator fewer than parts. */
  lemma {:induction false} JoinLength(sep: string, parts: seq<string>)
    requires |parts| > 0
    ensures |Join(sep, parts)| + |sep| == Offset(sep, parts, |parts|)
    decreases |parts|
  {
    if |parts| > 1 {
      JoinLength(sep, parts[1..]);
      OffsetShift(sep, parts, |parts|);
    }
  }

  /** A slice of the second half of a concatenation, read off the second half. */
  lemma SliceAfter(front: string, back: string, a: nat, b: nat)
    requires a <= b <= |back|
    ensures (front + back)[|front| + a..|front| + b] == back[a..b]
  {
  }

  /** A join of several parts is the first part, a separator, and the join of the rest. */
  lemma JoinCons(sep: string, parts: seq<string>)
    requires |parts| > 1
    ensures Join(sep, parts) == (parts[0] + sep) + Join(sep, parts[1..])
  {
  }

  /** A join starts with its first part. */
  lemma JoinFirst(sep: string, parts: seq<string>)
    requires |parts| > 0
    ensures |parts[0]| <= |Join(sep, parts)| && Join(sep, parts)[..|parts[0]|] == parts[0]
  {
    if |parts| > 1 {
      JoinCons(sep, parts);
    }
  }

  /** Part `i` sits at its offset: the parts appear in list order. */
  lemma {:induction false} JoinPartAt(sep: string, parts: seq<string>, i: nat)
    requires i < |parts|
    ensures Offset(sep, parts, i) + |parts[i]| <= |Join(sep, parts)|
    ensures Join(sep, parts)[Offset(sep, parts, i)..Offset(sep, parts, i) + |parts[i]|] == parts[i]
    decreases |parts|
  {
    if i == 0 {
      JoinFirst(sep, parts);
    } else {
      var rest := parts[1..];
      JoinCons(sep, parts);
      JoinPartAt(sep, rest, i - 1);
      OffsetShift(sep, parts, i);
      assert parts[i] == rest[i - 1];
      var at := Offset(sep, rest, i - 1);
      SliceAfter(parts[0] + sep, Join(sep, rest), at, at + |parts[i]|);
    }
  }

  /** Between part `i` and part `i + 1` stands exactly one separator. */
  lemma {:induction false} JoinSeparatorAt(sep: string, parts: seq<string>, i: nat)
    requires i + 1 < |parts|
    ensures Offset(sep, parts, i + 1) <= |Join(sep, parts)|
    ensures Join(sep, parts)[Offset(sep, parts, i) + |parts[i]|..Offset(sep, parts, i + 1)] == sep
    decreases |parts|
  {
    var rest := parts[1..];
    JoinCons(sep, parts);
    if i == 0 {
      assert Offset(sep, parts, 1) == |parts[0]| + |sep|;
      assert (parts[0] + sep)[|parts[0]|..] == sep;
    } else {
      JoinSeparatorAt(sep, rest, i - 1);
      OffsetShift(sep, parts, i);
      OffsetShift(sep, parts, i + 1);
      assert parts[i] == rest[i - 1];
      SliceAfter(parts[0] + sep, Join(sep, rest), Offset(sep, rest, i - 1) + |parts[i]|, Offset(sep, rest, i));
    }
  }

  /** `sub` occurs in `s` at position `i`. */
  predicate OccursAt(s: string, sub: string, i: int) {
    0 <= i <= |s| - |sub| && s[i..i + |sub|] == sub
  }

  /** `sub in s`, Python's substring test. */
  predicate Contains(s: string, sub: string)
    decreases |s|
  {
    if |sub| > |s| then false
    else s[..|sub|] == sub || (|s| > 0 && Contains(s[1..], sub))
  }

  /** A string in which the first character of `sub` never occurs does not contain a non-empty `sub`. */
  lemma {:induction false} MissingFirstChar(s: string, sub: string)
    requires |sub| > 0
    requires forall i :: 0 <= i < |s| ==> s[i] != sub[0]
    ensures !Contains(s, sub)
    decreases |s|
  {
    if |sub| <= |s| {
      assert s[..|sub|][0] == s[0];
      MissingFirstChar(s[1..], sub);
    }
  }

  /** `Contains` holds exactly when `sub` occurs at some position of `s`. */
  lemma {:induction false} ContainsOccurs(s: string, sub: string)
    ensures Contains(s, sub) <==> exists i :: OccursAt(s, sub, i)
    decreases |s|
  {
    if |sub| <= |s| {
      if s[..|sub|] == sub {
        assert OccursAt(s, sub, 0);
      } else if |s| > 0 {
        ContainsOccurs(s[1..], sub);
        if Contains(s[1..], sub) {
          var i :| OccursAt(s[1..], sub, i);
          assert s[i + 1..i + 1 + |sub|] == s[1..][i..i + |sub|];
          assert OccursAt(s, sub, i + 1);
        }
        if exists i :: OccursAt(s, sub, i) {
          var i :| OccursAt(s, sub, i);
          assert i > 0;
          assert s[1..][i - 1..i - 1 + |sub|] == s[i..i + |sub|];
          assert OccursAt(s[1..], sub, i - 1);
        }
      }
    } else {
      forall i | OccursAt(s, sub, i) ensures false { }
    }
  }
}
