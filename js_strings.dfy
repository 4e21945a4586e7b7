/**
  The handful of JavaScript string and array operations the bazi engine and
  its report consumer rely on, stated over `seq<char>`.  Each one follows the
  JavaScript semantics for the inputs the engine can produce.
 */
module JsStrings {

  /** `s[i]` (or the i-th entry of `s.split('')`): a one-character string, or,
      past the end, JavaScript's `undefined`.  In every place the engine uses
      such a value (a `Record` key, `indexOf`, `includes`, a template
      interpolation) `undefined` behaves exactly like the string "undefined",
      which is how it is represented here. */
  function At(s: string, i: nat): (r: string)
    ensures i < |s| ==> |r| == 1 && r[0] == s[i]
    ensures i >= |s| ==> r == "undefined"
  {
    if i < |s| then [s[i]] else "undefined"
  }

  /** `Array.prototype.indexOf`: the first position of `key`, or -1. */
  function IndexOf<T(==)>(table: seq<T>, key: T): (r: int)
    ensures -1 <= r < |table|
    ensures r == -1 <==> key !in table
    ensures 0 <= r ==> table[r] == key && key !in table[..r]
  {
    if |table| == 0 then -1
    else if table[0] == key then 0
    else
      var k := IndexOf(table[1..], key);
      assert table[1..][..k + 1] == table[1..k + 2] by { assert k == -1 || k + 1 < |table|; }
      if k == -1 then -1 else k + 1
  }

  /** In a table without repetitions, the position of an entry is its index. */
  lemma {:induction false} IndexOfDistinct<T>(table: seq<T>, i: nat)
    requires i < |table|
    requires forall j, k :: 0 <= j < k < |table| ==> table[j] != table[k]
    ensures IndexOf(table, table[i]) == i
  {
    var r := IndexOf(table, table[i]);
    assert 0 <= r && table[r] == table[i];
  }

  /** The remainder operator `%` of JavaScript, which truncates toward zero:
      `-1 % 2` is `-1`, where Dafny's Euclidean `%` gives `1`. */
  function JsRem(a: int, b: int): (r: int)
    requires b > 0
    ensures a >= 0 ==> r == a % b
    ensures a < 0 ==> -b < r <= 0 && -r == (-a) % b
  {
    if a >= 0 then a % b else -((-a) % b)
  }

  /** `Array.prototype.join(sep)`. */
  function Join(xs: seq<string>, sep: string): (r: string)
    ensures |xs| == 1 ==> r == xs[0]
    ensures |xs| == 0 ==> r == ""
  {
    if |xs| == 0 then ""
    else if |xs| == 1 then xs[0]
    else xs[0] + sep + Join(xs[1..], sep)
  }

  /** A character absent from every part and from the separator is absent
      from the joined string. */
  lemma {:induction false} JoinAvoids(xs: seq<string>, sep: string, c: char)
    requires c !in sep
    requires forall i :: 0 <= i < |xs| ==> c !in xs[i]
    ensures c !in Join(xs, sep)
  {
    if |xs| > 1 {
      JoinAvoids(xs[1..], sep, c);
    }
  }

  /** `String.prototype.split(c)` for a one-character separator: the pieces
      between separators, always at least one (`"".split(c)` is `[""]`). */
  function Split(s: string, c: char): (r: seq<string>)
    ensures |r| >= 1
    ensures |r| == 1 <==> c !in s
  {
    if |s| == 0 then [""]
    else
      var rest := Split(s[1..], c);
      if s[0] == c then [""] + rest
      else [[s[0]] + rest[0]] + rest[1..]
  }

  lemma {:induction false} SplitWithoutSeparator(s: string, c: char)
    requires c !in s
    ensures Split(s, c) == [s]
  {
    if |s| > 0 {
      SplitWithoutSeparator(s[1..], c);
      assert [s[0]] + s[1..] == s;
    }
  }

  /** Splitting at the first separator: the text before it is the first piece. */
  lemma {:induction false} SplitAtSeparator(a: string, b: string, c: char)
    requires c !in a
    ensures Split(a + [c] + b, c) == [a] + Split(b, c)
  {
    if |a| == 0 {
      assert a + [c] + b == [c] + b;
      assert ([c] + b)[1..] == b;
    } else {
      SplitAtSeparator(a[1..], b, c);
      assert (a + [c] + b)[1..] == a[1..] + [c] + b;
      assert [a[0]] + a[1..] == a;
    }
  }

  /** `split` undoes `join` when no part contains the separator. */
  lemma {:induction false} SplitJoin(xs: seq<string>, c: char)
    requires |xs| >= 1
    requires forall i :: 0 <= i < |xs| ==> c !in xs[i]
    ensures Split(Join(xs, [c]), c) == xs
  {
    if |xs| == 1 {
      SplitWithoutSeparator(xs[0], c);
    } else {
      SplitJoin(xs[1..], c);
      SplitAtSeparator(xs[0], Join(xs[1..], [c]), c);
      assert [xs[0]] + xs[1..] == xs;
    }
  }

  /** `t` occurs in `s` starting at position `i`. */
  predicate OccursAt(s: string, t: string, i: int) {
    0 <= i && i + |t| <= |s| && s[i..i + |t|] == t
  }

  /** `String.prototype.includes(t)`. */
  function Contains(s: string, t: string): (r: bool)
    ensures t <= s ==> r
    ensures r ==> |t| <= |s|
  {
    t <= s || (|s| > 0 && Contains(s[1..], t))
  }

  /** `includes` holds exactly when `t` occurs at some position of `s`. */
  lemma {:induction false} ContainsOccurs(s: string, t: string)
    ensures Contains(s, t) <==> exists i :: OccursAt(s, t, i)
  {
    OccursAtStart(s, t);
    if !(t <= s) && |s| > 0 {
      ContainsOccurs(s[1..], t);
      forall i | OccursAt(s, t, i)
        ensures OccursAt(s[1..], t, i - 1)
      {
        OccursAtShift(s, t, i);
      }
      if Contains(s[1..], t) {
        var i :| OccursAt(s[1..], t, i);
        OccursAtShift(s, t, i + 1);
      }
    }
  }

  /** An occurrence at the start is a prefix. */
  lemma OccursAtStart(s: string, t: string)
    ensures OccursAt(s, t, 0) <==> t <= s
  {
  }

  /** Dropping the first character moves every later occurrence back by one. */
  lemma OccursAtShift(s: string, t: string, i: int)
    requires |s| > 0 && i >= 1
    ensures OccursAt(s, t, i) <==> OccursAt(s[1..], t, i - 1)
  {
    if i + |t| <= |s| {
      assert s[1..][i - 1..i - 1 + |t|] == s[i..i + |t|];
    }
  }

  /** A string lacking the first character of `t` cannot contain `t`. */
  lemma {:induction false} ContainsNeedsHead(s: string, t: string)
    requires |t| > 0 && t[0] !in s
    ensures !Contains(s, t)
  {
    if |s| > 0 {
      ContainsNeedsHead(s[1..], t);
    }
  }

  /** A prefix lacking the first character of `t` cannot hold (the start of)
      an occurrence of `t`. */
  lemma {:induction false} ContainsAfterPrefix(a: string, b: string, t: string)
    requires |t| > 0 && t[0] !in a
    ensures Contains(a + b, t) == Contains(b, t)
  {
    if |a| > 0 {
      ContainsAfterPrefix(a[1..], b, t);
      assert (a + b)[1..] == a[1..] + b;
    } else {
      assert a + b == b;
    }
  }

  /** An occurrence of `t` cannot straddle a separator character that `t`
      does not contain. */
  lemma {:induction false} ContainsAcrossSeparator(a: string, c: char, b: string, t: string)
    requires c !in t
    requires !Contains(a, t) && !Contains(b, t)
    ensures !Contains(a + [c] + b, t)
  {
    var s := a + [c] + b;
    if |t| <= |a| {
      assert s[..|t|] == a[..|t|];
    } else {
      assert s[|a|] == c && t[|a|] != c;
    }
    if |a| == 0 {
      assert s[1..] == b;
    } else {
      assert !Contains(a[1..], t);
      ContainsAcrossSeparator(a[1..], c, b, t);
      assert s[1..] == a[1..] + [c] + b;
    }
  }

  /** `String.prototype.replace(t, u)` with a string pattern: only the first
      occurrence is replaced. */
  function ReplaceFirst(s: string, t: string, u: string): (r: string)
    ensures !Contains(s, t) ==> r == s
    ensures t <= s ==> r == u + s[|t|..]
  {
    if t <= s then u + s[|t|..]
    else if |s| == 0 then s
    else [s[0]] + ReplaceFirst(s[1..], t, u)
  }

  /** The first occurrence of `t`, wherever it starts, is the one replaced. */
  lemma {:induction false} ReplaceFirstOccurrence(s: string, t: string, u: string, i: nat)
    requires OccursAt(s, t, i)
    requires forall j :: 0 <= j < i ==> !OccursAt(s, t, j)
    ensures ReplaceFirst(s, t, u) == s[..i] + u + s[i + |t|..]
  {
    OccursAtStart(s, t);
    if i > 0 {
      forall j | 0 <= j < i - 1
        ensures !OccursAt(s[1..], t, j)
      {
        OccursAtShift(s, t, j + 1);
      }
      OccursAtShift(s, t, i);
      ReplaceFirstOccurrence(s[1..], t, u, i - 1);
      ReplaceFirstStep(s, t, u, i);
    }
  }

  /** The replacement after a first character that starts no occurrence. */
  lemma ReplaceFirstStep(s: string, t: string, u: string, i: nat)
    requires 0 < i && i + |t| <= |s| && !(t <= s)
    requires ReplaceFirst(s[1..], t, u) == s[1..][..i - 1] + u + s[1..][i - 1 + |t|..]
    ensures ReplaceFirst(s, t, u) == s[..i] + u + s[i + |t|..]
  {
    var rest := s[1..];
    var a, b := rest[..i - 1], rest[i - 1 + |t|..];
    assert ReplaceFirst(s, t, u) == [s[0]] + ReplaceFirst(rest, t, u);
    assert [s[0]] + (a + u + b) == ([s[0]] + a) + u + b;
    assert [s[0]] + a == s[..i];
    assert b == s[i + |t|..];
  }
}
