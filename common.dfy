/** Shared vocabulary of the model: optional values, the outcome of a call to the
    generative-language-model service, Python-style string predicates and the
    sequence functions the mock generators and extractors are specified with. */
module Common {

  datatype Option<T> = None | Some(value: T)

  /** What a call into the remote model service produced. `Unavailable` stands for the
      module flag GENAI_AVAILABLE being false (the call is never made); `Raised` for any
      exception on the AI path (network, an undefined client, `json.loads`); `Replied`
      for a reply that was parsed, kept opaque because nothing checks its shape. */
  datatype AiCall = Unavailable | Raised | Replied(payload: string)

  // ---------------------------------------------------------------------------
  // Strings

  /** Python's `w in s` on strings: `w` occurs as a contiguous piece of `s`. */
  predicate IsSubstring(w: string, s: string) {
    exists i | 0 <= i <= |s| - |w| :: OccursAt(w, s, i)
  }

  /** `w` occurs in `s` starting at position `i`. */
  predicate OccursAt(w: string, s: string, i: int) {
    0 <= i <= |s| - |w| && s[i..i + |w|] == w
  }

  /** `any(word in s for word in words)` */
  predicate ContainsAny(words: seq<string>, s: string) {
    exists k | 0 <= k < |words| :: IsSubstring(words[k], s)
  }

  lemma {:induction false} SubstringTransitive(a: string, b: string, c: string)
    requires IsSubstring(a, b) && IsSubstring(b, c)
    ensures IsSubstring(a, c)
  {
    var i :| 0 <= i <= |b| - |a| && OccursAt(a, b, i);
    var j :| 0 <= j <= |c| - |b| && OccursAt(b, c, j);
    forall k | 0 <= k < |a| ensures c[j + i + k] == a[k] {
      assert c[j + i + k] == c[j..j + |b|][i + k] == b[i + k] == b[i..i + |a|][k];
    }
    assert c[j + i..j + i + |a|] == a;
    assert OccursAt(a, c, j + i);
  }

  function LowerChar(c: char): char {
    if 'A' <= c <= 'Z' then (c as int + 32) as char else c
  }

  /** `str.lower()` restricted to ASCII letters: every other character is kept. The
      result differs from `s` at most in case and holds no upper-case letter. */
  function Lower(s: string): (r: string)
    ensures |r| == |s|
    ensures forall i | 0 <= i < |s| :: r[i] == LowerChar(s[i])
    ensures SameIgnoringCase(s, r)
    ensures forall i | 0 <= i < |r| :: !('A' <= r[i] <= 'Z')
  {
    seq(|s|, i requires 0 <= i < |s| => LowerChar(s[i]))
  }

  /** Two strings that differ at most in the case of ASCII letters. */
  predicate SameIgnoringCase(a: string, b: string) {
    |a| == |b| && forall i | 0 <= i < |a| :: LowerChar(a[i]) == LowerChar(b[i])
  }

  /** Python's `str.isspace()` for one character, the set `str.strip()` removes. */
  predicate IsSpace(c: char) {
    var n := c as int;
    (0x09 <= n <= 0x0D) || (0x1C <= n <= 0x20) || n == 0x85 || n == 0xA0 || n == 0x1680
    || (0x2000 <= n <= 0x200A) || n == 0x2028 || n == 0x2029 || n == 0x202F || n == 0x205F
    || n == 0x3000
  }

  /** `not s.strip()`: the string is empty or holds only whitespace. */
  predicate IsBlank(s: string) {
    forall i | 0 <= i < |s| :: IsSpace(s[i])
  }

  /** Concatenation of page texts in page order (`text += page_text`). */
  function Concat(pages: seq<string>): string {
    if pages == [] then "" else Concat(pages[..|pages| - 1]) + pages[|pages| - 1]
  }

  // ---------------------------------------------------------------------------
  // Templates with a `{role}` field

  /** A response template in the parsed form `str.format` reads it in: the literal
      text before its one `{role}` field and the literal text after it. */
  datatype Template = Template(before: string, after: string) {
    /** The template as written in the source. */
    function Text(): string { before + "{role}" + after }

    /** No brace in the literal parts: the field is the template's only one. */
    predicate WellFormed() {
      '{' !in before && '}' !in before && '{' !in after && '}' !in after
    }

    /** The template with `role` in its field; the role text appears in it, right
        after the leading literal part. */
    function Fill(role: string): (r: string)
      ensures |r| == |before| + |role| + |after|
      ensures r[..|before|] == before && r[|before| + |role|..] == after
      ensures IsSubstring(role, r)
    {
      var r := before + role + after;
      assert r[|before|..|before| + |role|] == role;
      assert OccursAt(role, r, |before|);
      r
    }
  }

  /** `template.format(role=role)` on text whose only braces are `{role}` fields:
      every such field is replaced by `role`. The model leaves every other
      character, stray braces included, in place; it says nothing about how Python
      treats `{{`, `}}`, a lone `}` or other fields. */
  function FormatRole(s: string, role: string): (r: string)
    ensures '{' !in s ==> r == s
    decreases |s|
  {
    if |s| == 0 then ""
    else if |s| >= 6 && s[..6] == "{role}" then
      assert s[0] == s[..6][0] == '{';
      role + FormatRole(s[6..], role)
    else
      assert [s[0]] + s[1..] == s;
      [s[0]] + FormatRole(s[1..], role)
  }

  /** A character other than an opening brace passes through formatting unchanged. */
  lemma FormatPlainChar(c: char, t: string, role: string)
    requires c != '{'
    ensures FormatRole([c] + t, role) == [c] + FormatRole(t, role)
  {
    var s := [c] + t;
    assert s[0] == c;
    assert |s| >= 6 ==> s[..6][0] == c;
    assert s[1..] == t;
  }

  lemma ConsConcat<T>(s: seq<T>, z: seq<T>)
    requires |s| > 0
    ensures [s[0]] + (s[1..] + z) == s + z
  {
  }

  /** A prefix without an opening brace passes through formatting unchanged. */
  lemma {:induction false} FormatBraceFreePrefix(a: string, rest: string, role: string)
    requires '{' !in a
    ensures FormatRole(a + rest, role) == a + FormatRole(rest, role)
    decreases |a|
  {
    if a != [] {
      var tail := a[1..] + rest;
      ConsConcat(a, rest);
      FormatPlainChar(a[0], tail, role);
      FormatBraceFreePrefix(a[1..], rest, role);
      ConsConcat(a, FormatRole(rest, role));
    } else {
      assert a + rest == rest;
    }
  }

  /** Formatting the text of a well-formed template is filling its field. */
  lemma FormatTemplate(t: Template, role: string)
    requires t.WellFormed()
    ensures FormatRole(t.Text(), role) == t.Fill(role)
  {
    var tail := "{role}" + t.after;
    assert t.Text() == t.before + tail;
    FormatBraceFreePrefix(t.before, tail, role);
    FormatField(t.after, role);
    assert t.before + (role + t.after) == t.before + role + t.after;
  }

  lemma FormatField(after: string, role: string)
    ensures FormatRole("{role}" + after, role) == role + FormatRole(after, role)
  {
    var s := "{role}" + after;
    assert |s| >= 6 && s[..6] == "{role}";
    assert s[6..] == after;
  }

  // ---------------------------------------------------------------------------
  // Sequences

  predicate Distinct<T(==)>(s: seq<T>) {
    forall i, j | 0 <= i < j < |s| :: s[i] != s[j]
  }

  /** Two duplicate-free sequences with no common element join into one. */
  lemma DistinctAppend<T>(a: seq<T>, b: seq<T>)
    requires Distinct(a) && Distinct(b)
    requires forall x | x in a :: x !in b
    ensures Distinct(a + b)
  {
    forall i, j | 0 <= i < j < |a + b| ensures (a + b)[i] != (a + b)[j] {
      if j < |a| {
        assert (a + b)[i] == a[i] && (a + b)[j] == a[j];
      } else if i < |a| {
        assert (a + b)[i] == a[i] && (a + b)[j] == b[j - |a|];
        assert a[i] in a;
      } else {
        assert (a + b)[i] == b[i - |a|] && (a + b)[j] == b[j - |a|];
      }
    }
  }

  /** `x` occurs in `s` at an earlier position than `y`. */
  predicate Precedes<T(==)>(s: seq<T>, x: T, y: T) {
    exists i, j | 0 <= i < j < |s| :: s[i] == x && s[j] == y
  }

  /** Every earlier element of `r` occurs earlier in `s`: `r` lists elements in `s`'s order. */
  predicate InOrderOf<T(==)>(r: seq<T>, s: seq<T>) {
    forall i, j | 0 <= i < j < |r| :: Precedes(s, r[i], r[j])
  }

  /** `[x for x in s if p(x)]` */
  function Filter<T>(s: seq<T>, p: T -> bool): (r: seq<T>)
    ensures |r| <= |s|
    ensures forall x | x in r :: x in s && p(x)
  {
    if s == [] then [] else (if p(s[0]) then [s[0]] else []) + Filter(s[1..], p)
  }

  lemma {:induction false} FilterComplete<T>(s: seq<T>, p: T -> bool, x: T)
    requires x in s && p(x)
    ensures x in Filter(s, p)
  {
    if s[0] != x {
      FilterComplete(s[1..], p, x);
    }
  }

  /** Filtering one more element at the end extends the result at the end. */
  lemma {:induction false} FilterSnoc<T>(s: seq<T>, x: T, p: T -> bool)
    ensures Filter(s + [x], p) == Filter(s, p) + (if p(x) then [x] else [])
  {
    if s == [] {
      assert s + [x] == [x];
    } else {
      var h := if p(s[0]) then [s[0]] else [];
      var e := if p(x) then [x] else [];
      assert (s + [x])[0] == s[0];
      assert (s + [x])[1..] == s[1..] + [x];
      assert Filter(s + [x], p) == h + Filter(s[1..] + [x], p);
      FilterSnoc(s[1..], x, p);
      assert Filter(s, p) == h + Filter(s[1..], p);
      assert h + (Filter(s[1..], p) + e) == (h + Filter(s[1..], p)) + e;
    }
  }

  lemma {:induction false} FilterConcat<T>(s: seq<T>, t: seq<T>, p: T -> bool)
    ensures Filter(s + t, p) == Filter(s, p) + Filter(t, p)
  {
    if s == [] {
      assert s + t == t;
    } else {
      assert (s + t)[0] == s[0];
      assert (s + t)[1..] == s[1..] + t;
      FilterConcat(s[1..], t, p);
    }
  }

  lemma {:induction false} FilterNone<T>(s: seq<T>, p: T -> bool)
    requires forall x | x in s :: !p(x)
    ensures Filter(s, p) == []
  {
    if s != [] {
      assert s[0] in s;
      FilterNone(s[1..], p);
    }
  }

  /** Filtering a sequence with exactly two hits, `a` before `b`. */
  lemma FilterTwoHits<T>(s1: seq<T>, a: T, s2: seq<T>, b: T, s3: seq<T>, p: T -> bool)
    requires p(a) && p(b)
    requires forall x | x in s1 :: !p(x)
    requires forall x | x in s2 :: !p(x)
    requires forall x | x in s3 :: !p(x)
    ensures Filter(s1 + [a] + s2 + [b] + s3, p) == [a, b]
  {
    var t1 := s1 + [a];
    FilterNone(s1, p);
    FilterSnoc(s1, a, p);
    assert Filter(t1, p) == [a];
    var t2 := t1 + s2;
    FilterNone(s2, p);
    FilterConcat(t1, s2, p);
    assert Filter(t2, p) == [a];
    var t3 := t2 + [b];
    FilterSnoc(t2, b, p);
    assert Filter(t3, p) == [a, b];
    FilterNone(s3, p);
    FilterConcat(t3, s3, p);
  }

  lemma {:induction false} FilterDistinct<T>(s: seq<T>, p: T -> bool)
    requires Distinct(s)
    ensures Distinct(Filter(s, p))
  {
    if s != [] {
      var rest := s[1..];
      assert Distinct(rest) by {
        forall i, j | 0 <= i < j < |rest| ensures rest[i] != rest[j] {
          assert rest[i] == s[i + 1] && rest[j] == s[j + 1];
        }
      }
      FilterDistinct(rest, p);
      if p(s[0]) {
        var f := Filter(s, p);
        assert f == [s[0]] + Filter(rest, p);
        forall i, j | 0 <= i < j < |f| ensures f[i] != f[j] {
          if i == 0 {
            assert f[j] in Filter(rest, p);
            assert f[j] in rest;
            var k :| 0 <= k < |rest| && rest[k] == f[j];
            assert s[k + 1] == f[j];
          } else {
            assert f[i] == Filter(rest, p)[i - 1] && f[j] == Filter(rest, p)[j - 1];
          }
        }
      }
    }
  }

  lemma {:induction false} FilterInOrder<T>(s: seq<T>, p: T -> bool)
    ensures InOrderOf(Filter(s, p), s)
  {
    if s != [] {
      var rest := s[1..];
      var fr := Filter(rest, p);
      FilterInOrder(rest, p);
      var f := Filter(s, p);
      // every precedence in `rest` is a precedence in `s`, one position later
      assert forall x, y | Precedes(rest, x, y) :: Precedes(s, x, y) by {
        forall x, y | Precedes(rest, x, y) ensures Precedes(s, x, y) {
          var i, j :| 0 <= i < j < |rest| && rest[i] == x && rest[j] == y;
          assert s[i + 1] == x && s[j + 1] == y;
        }
      }
      if p(s[0]) {
        assert f == [s[0]] + fr;
        forall i, j | 0 <= i < j < |f| ensures Precedes(s, f[i], f[j]) {
          if i == 0 {
            assert f[j] == fr[j - 1];
            assert f[j] in rest;
            var k :| 0 <= k < |rest| && rest[k] == f[j];
            assert s[0] == f[i] && s[k + 1] == f[j];
          } else {
            assert f[i] == fr[i - 1] && f[j] == fr[j - 1];
            assert Precedes(rest, fr[i - 1], fr[j - 1]);
          }
        }
      } else {
        assert f == fr;
        forall i, j | 0 <= i < j < |f| ensures Precedes(s, f[i], f[j]) {
          assert Precedes(rest, fr[i], fr[j]);
        }
      }
    }
  }

  /** `s[:n]` */
  function Take<T>(s: seq<T>, n: nat): (r: seq<T>)
    ensures |r| == if |s| <= n then |s| else n
    ensures r == s[..|r|]
  {
    if |s| <= n then s else s[..n]
  }

  /** `[f(x) for x in s]` */
  function Map<A, B>(s: seq<A>, f: A -> B): (r: seq<B>)
    ensures |r| == |s|
    ensures forall k | 0 <= k < |s| :: r[k] == f(s[k])
  {
    if s == [] then [] else Map(s[..|s| - 1], f) + [f(s[|s| - 1])]
  }

  // ---------------------------------------------------------------------------
  // Multisets, for permutations

  lemma {:induction false} DistinctCounts<T>(s: seq<T>, x: T)
    requires Distinct(s)
    ensures multiset(s)[x] <= 1
  {
    if s != [] {
      var rest := s[1..];
      assert s == [s[0]] + rest;
      assert Distinct(rest) by {
        forall i, j | 0 <= i < j < |rest| ensures rest[i] != rest[j] {
          assert rest[i] == s[i + 1] && rest[j] == s[j + 1];
        }
      }
      DistinctCounts(rest, x);
      if s[0] == x {
        assert x !in rest by {
          forall k | 0 <= k < |rest| ensures rest[k] != x {
            assert rest[k] == s[k + 1];
          }
        }
        assert multiset(rest)[x] == 0;
      }
    }
  }

  lemma RepeatedCounts<T>(s: seq<T>, i: nat, j: nat)
    requires i < j < |s| && s[i] == s[j]
    ensures multiset(s)[s[i]] >= 2
  {
    assert s == s[..i] + [s[i]] + s[i + 1..j] + [s[j]] + s[j + 1..];
  }

  /** A rearrangement of a list without repetitions has none either. */
  lemma PermutationDistinct<T>(a: seq<T>, b: seq<T>)
    requires multiset(a) == multiset(b) && Distinct(b)
    ensures Distinct(a)
  {
    forall i, j | 0 <= i < j < |a| ensures a[i] != a[j] {
      if a[i] == a[j] {
        RepeatedCounts(a, i, j);
        DistinctCounts(b, a[i]);
        assert false;
      }
    }
  }
}
