/** The two string operations of the Java library the actions rely on:
    `String.trim` and `String.replace(CharSequence, CharSequence)`, and a
    filter over sequences. */
module Text {

  /** `String.trim` strips every character at or below U+0020. */
  predicate IsBlank(c: char) { c <= ' ' }

  /** Number of blanks at the start of `s`. */
  function LeadingBlanks(s: string): (n: nat)
    ensures n <= |s|
    ensures forall k :: 0 <= k < n ==> IsBlank(s[k])
    ensures n < |s| ==> !IsBlank(s[n])
  {
    if s == [] || !IsBlank(s[0]) then 0 else 1 + LeadingBlanks(s[1..])
  }

  /** Number of blanks at the end of `s`. */
  function TrailingBlanks(s: string): (n: nat)
    ensures n <= |s|
    ensures forall k :: |s| - n <= k < |s| ==> IsBlank(s[k])
    ensures n < |s| ==> !IsBlank(s[|s| - 1 - n])
  {
    if s == [] || !IsBlank(s[|s| - 1]) then 0 else 1 + TrailingBlanks(s[..|s| - 1])
  }

  /** `s` with its leading and trailing blanks removed. */
  function Trim(s: string): string
  {
    var t := s[LeadingBlanks(s)..];
    t[..|t| - TrailingBlanks(t)]
  }

  /** The trimmed string is a slice of `s` that neither starts nor ends with a
      blank, and only blanks lie outside it. */
  lemma TrimStripsBlanks(s: string)
    ensures var r := Trim(s);
            && (r == [] || (!IsBlank(r[0]) && !IsBlank(r[|r| - 1])))
            && exists i :: 0 <= i <= |s| && OccursAt(s, r, i)
                           && (forall k :: 0 <= k < i ==> IsBlank(s[k]))
                           && (forall k :: i + |r| <= k < |s| ==> IsBlank(s[k]))
  {
    var a := LeadingBlanks(s);
    var t := s[a..];
    var b := TrailingBlanks(t);
    var r := t[..|t| - b];
    assert r == Trim(s);
    assert OccursAt(s, r, a);
    forall k | a + |r| <= k < |s|
      ensures IsBlank(s[k])
    {
      assert s[k] == t[k - a];
    }
    if r != [] {
      assert r[0] == s[a];
      assert r[|r| - 1] == t[|t| - 1 - b];
    }
  }

  /** `t` occurs in `s` at index `i`. */
  predicate OccursAt(s: string, t: string, i: int)
  {
    0 <= i && i + |t| <= |s| && s[i..i + |t|] == t
  }

  predicate Contains(s: string, t: string)
  {
    exists i :: 0 <= i <= |s| && OccursAt(s, t, i)
  }

  /** Java's `s.replace(target, replacement)` for a non-empty target: the
      occurrences of `target` are replaced left to right, never overlapping. */
  function Replace(s: string, target: string, replacement: string): string
    requires target != []
    decreases |s|
  {
    if |s| < |target| then s
    else if s[..|target|] == target then replacement + Replace(s[|target|..], target, replacement)
    else [s[0]] + Replace(s[1..], target, replacement)
  }

  /** A string without an occurrence of the target is left as it is. */
  lemma {:induction false} ReplaceWithoutOccurrence(s: string, target: string, replacement: string)
    requires target != []
    requires !Contains(s, target)
    ensures Replace(s, target, replacement) == s
  {
    if |s| >= |target| {
      assert !OccursAt(s, target, 0);
      forall i | OccursAt(s[1..], target, i)
        ensures OccursAt(s, target, i + 1)
      {
        assert s[1..][i..i + |target|] == s[i + 1..i + 1 + |target|];
      }
      ReplaceWithoutOccurrence(s[1..], target, replacement);
    }
  }

  /** Up to the first occurrence of the target, `replace` copies the string. */
  lemma {:induction false} ReplaceCopiesPrefix(s: string, target: string, replacement: string, i: nat)
    requires target != []
    requires OccursAt(s, target, i)
    requires forall j :: 0 <= j < i ==> !OccursAt(s, target, j)
    ensures Replace(s, target, replacement) == s[..i] + Replace(s[i..], target, replacement)
    decreases i
  {
    if i == 0 {
      assert s[..0] == [] && s[0..] == s;
    } else {
      var tail := s[1..];
      ReplaceSkipsFirst(s, target, replacement);
      OccurrenceShift(s, target, i);
      ReplaceCopiesPrefix(tail, target, replacement, i - 1);
      TailSlices(s, i, i);
      AppendAssoc([s[0]], tail[..i - 1], Replace(s[i..], target, replacement));
    }
  }

  /** Up to the first occurrence of the target, `replace` copies the string;
      that occurrence becomes the replacement, and the rest is replaced in turn. */
  lemma ReplaceFirstOccurrence(s: string, target: string, replacement: string, i: nat)
    requires target != []
    requires OccursAt(s, target, i)
    requires forall j :: 0 <= j < i ==> !OccursAt(s, target, j)
    ensures Replace(s, target, replacement)
            == s[..i] + replacement + Replace(s[i + |target|..], target, replacement)
  {
    ReplaceCopiesPrefix(s, target, replacement, i);
    assert OccursAt(s[i..], target, 0) by {
      assert s[i..][0..|target|] == s[i..i + |target|];
    }
    ReplaceAtStart(s[i..], target, replacement);
    assert s[i..][|target|..] == s[i + |target|..];
    AppendAssoc(s[..i], replacement, Replace(s[i + |target|..], target, replacement));
  }

  lemma ReplaceAtStart(s: string, target: string, replacement: string)
    requires target != [] && OccursAt(s, target, 0)
    ensures Replace(s, target, replacement) == replacement + Replace(s[|target|..], target, replacement)
  {
    assert s[..|target|] == s[0..|target|];
  }

  lemma ReplaceSkipsFirst(s: string, target: string, replacement: string)
    requires target != [] && |s| >= |target| && !OccursAt(s, target, 0)
    ensures Replace(s, target, replacement) == [s[0]] + Replace(s[1..], target, replacement)
  {
    assert s[0..|target|] == s[..|target|];
  }

  /** Dropping the first character moves every occurrence one place left. */
  lemma OccurrenceShift(s: string, target: string, i: nat)
    requires 0 < i && OccursAt(s, target, i)
    requires forall j :: 0 <= j < i ==> !OccursAt(s, target, j)
    ensures OccursAt(s[1..], target, i - 1)
    ensures forall j :: 0 <= j < i - 1 ==> !OccursAt(s[1..], target, j)
  {
    var tail := s[1..];
    assert tail[i - 1..i - 1 + |target|] == s[i..i + |target|];
    forall j | 0 <= j < i - 1
      ensures !OccursAt(tail, target, j)
    {
      assert !OccursAt(s, target, j + 1);
      assert j + |target| <= |tail| ==> tail[j..j + |target|] == s[j + 1..j + 1 + |target|];
    }
  }

  /** A string that is exactly the target becomes exactly the replacement. */
  lemma ReplaceWhole(target: string, replacement: string)
    requires target != []
    ensures Replace(target, target, replacement) == replacement
  {
    assert target[|target|..] == [];
    assert replacement + [] == replacement;
  }

  /** Slicing after dropping the head is slicing one place further on. */
  lemma TailSlices<T>(s: seq<T>, i: nat, j: nat)
    requires 0 < i <= j <= |s|
    ensures [s[0]] + s[1..][..i - 1] == s[..i]
    ensures s[1..][j - 1..] == s[j..]
  {
  }

  /** Stated once so that callers need not prove it element by element. */
  lemma AppendAssoc<T>(a: seq<T>, b: seq<T>, c: seq<T>)
    ensures a + b + c == a + (b + c)
  {
  }

  /** The elements of `s` that satisfy `f`, in their order in `s`. */
  function Filter<T>(f: T -> bool, s: seq<T>): (r: seq<T>)
    ensures |r| <= |s|
    ensures forall x :: x in r ==> x in s && f(x)
  {
    if s == [] then [] else (if f(s[0]) then [s[0]] else []) + Filter(f, s[1..])
  }

  lemma FilterSingleton<T>(f: T -> bool, x: T)
    ensures Filter(f, [x]) == if f(x) then [x] else []
  {
    assert [x][1..] == [];
  }

  lemma PrefixOfAppend<T>(a: seq<T>, b: seq<T>)
    ensures (a + b)[..|a|] == a
  {
  }

  lemma {:induction false} FilterAppend<T>(f: T -> bool, a: seq<T>, b: seq<T>)
    ensures Filter(f, a + b) == Filter(f, a) + Filter(f, b)
  {
    if a != [] {
      assert (a + b)[1..] == a[1..] + b;
      FilterAppend(f, a[1..], b);
    } else {
      assert a + b == b;
    }
  }
}
