/** Small value-level helpers shared by every page of the site: an Option type for the
    JavaScript `null`/`undefined` results, `Array.prototype.filter`, `slice(0, n)` /
    `substring(0, n)`, and the string tests `toLowerCase` / `includes`. */
module Common {

  /** A value that may be absent (JavaScript `null` or `undefined`). */
  datatype Option<+T> = None | Some(value: T)

  /** `xs.filter(keep)`: the elements satisfying `keep`, in their original order. */
  function Keep<T(!new)>(xs: seq<T>, keep: T -> bool): (r: seq<T>)
    ensures |r| <= |xs|
    ensures forall x :: x in r <==> x in xs && keep(x)
  {
    if xs == [] then []
    else
      assert xs == [xs[0]] + xs[1..];
      (if keep(xs[0]) then [xs[0]] else []) + Keep(xs[1..], keep)
  }

  /** A filter keeps each passing element with its original multiplicity and drops every
      other element entirely. */
  lemma {:induction false} KeepCounts<T(!new)>(xs: seq<T>, keep: T -> bool)
    ensures forall x :: multiset(Keep(xs, keep))[x] == if keep(x) then multiset(xs)[x] else 0
  {
    if xs != [] {
      KeepCounts(xs[1..], keep);
      assert xs == [xs[0]] + xs[1..];
      assert multiset(xs) == multiset([xs[0]]) + multiset(xs[1..]);
    }
  }

  /** Filtering distributes over concatenation: this is what "in original order" means. */
  lemma {:induction false} KeepAppend<T(!new)>(a: seq<T>, b: seq<T>, keep: T -> bool)
    ensures Keep(a + b, keep) == Keep(a, keep) + Keep(b, keep)
  {
    if a == [] {
      assert a + b == b;
    } else {
      assert (a + b)[1..] == a[1..] + b;
      assert (a + b)[0] == a[0];
      KeepAppend(a[1..], b, keep);
    }
  }

  /** A filter that every element passes returns its input unchanged. */
  lemma {:induction false} KeepAll<T(!new)>(xs: seq<T>, keep: T -> bool)
    requires forall x :: x in xs ==> keep(x)
    ensures Keep(xs, keep) == xs
  {
    if xs != [] {
      assert forall x :: x in xs[1..] ==> x in xs;
      KeepAll(xs[1..], keep);
    }
  }

  /** A filter that no element passes returns the empty list. */
  lemma {:induction false} KeepNone<T(!new)>(xs: seq<T>, keep: T -> bool)
    requires forall x :: x in xs ==> !keep(x)
    ensures Keep(xs, keep) == []
  {
    if xs != [] {
      assert forall x :: x in xs[1..] ==> x in xs;
      KeepNone(xs[1..], keep);
    }
  }

  /** `xs.find(matches)`: the first element satisfying `matches`, or none. */
  function FindFirst<T(==,!new)>(xs: seq<T>, matches: T -> bool): (r: Option<T>)
    ensures r.None? <==> forall x :: x in xs ==> !matches(x)
    ensures r.Some? ==>
              matches(r.value) &&
              exists k :: 0 <= k < |xs| && xs[k] == r.value &&
                          forall j :: 0 <= j < k ==> !matches(xs[j])
  {
    if xs == [] then None
    else if matches(xs[0]) then Some(xs[0])
    else
      var r := FindFirst(xs[1..], matches);
      assert forall x :: x in xs ==> x == xs[0] || x in xs[1..];
      if r.Some? then
        var k :| 0 <= k < |xs[1..]| && xs[1..][k] == r.value &&
                 forall j :: 0 <= j < k ==> !matches(xs[1..][j]);
        assert xs[k + 1] == r.value;
        assert forall j :: 1 <= j < k + 1 ==> xs[j] == xs[1..][j - 1];
        r
      else r
  }

  /** An element that matches, with no match before it, is the one found. */
  lemma {:induction false} FindFirstAt<T(!new)>(xs: seq<T>, matches: T -> bool, k: nat)
    requires k < |xs| && matches(xs[k])
    requires forall j :: 0 <= j < k ==> !matches(xs[j])
    ensures FindFirst(xs, matches) == Some(xs[k])
  {
    if k > 0 {
      assert !matches(xs[0]);
      assert forall j :: 0 <= j < k - 1 ==> xs[1..][j] == xs[j + 1];
      FindFirstAt(xs[1..], matches, k - 1);
    }
  }

  /** `s.slice(0, n)` and `s.substring(0, n)` for n >= 0: the first n elements, or all of
      them when there are fewer. */
  function Take<T>(s: seq<T>, n: nat): (r: seq<T>)
    ensures |r| == if |s| <= n then |s| else n
    ensures r <= s
  {
    if |s| <= n then s else s[..n]
  }

  /** `String.prototype.toLowerCase` restricted to ASCII letters. */
  function LowerChar(c: char): (d: char)
    ensures 'A' <= c <= 'Z' ==> 'a' <= d <= 'z' && d as int == c as int - 'A' as int + 'a' as int
    ensures !('A' <= c <= 'Z') ==> d == c
  {
    if 'A' <= c <= 'Z' then (c as int - 'A' as int + 'a' as int) as char else c
  }

  function ToLower(s: string): (r: string)
    ensures |r| == |s|
    ensures forall i :: 0 <= i < |s| ==> r[i] == LowerChar(s[i])
  {
    seq(|s|, i requires 0 <= i < |s| => LowerChar(s[i]))
  }

  /** Lower-casing twice is lower-casing once: the result holds no ASCII capital. */
  lemma ToLowerIdempotent(s: string)
    ensures ToLower(ToLower(s)) == ToLower(s)
  {
    var r := ToLower(s);
    forall i | 0 <= i < |s|
      ensures ToLower(r)[i] == r[i]
    {
      assert !('A' <= r[i] <= 'Z');
    }
  }

  /** `hay.includes(needle)`: `needle` occurs in `hay` at some position. */
  predicate Includes(hay: string, needle: string)
    ensures Includes(hay, needle) ==> |needle| <= |hay|
    decreases |hay|
  {
    needle <= hay || (hay != [] && Includes(hay[1..], needle))
  }

  /** `needle` occupies the positions `i .. i + |needle|` of `hay`. */
  predicate OccursAt(hay: string, needle: string, i: int)
  {
    0 <= i && i + |needle| <= |hay| && hay[i..i + |needle|] == needle
  }

  /** `Includes` holds exactly when `needle` occurs at some position of `hay`. */
  lemma IncludesAt(hay: string, needle: string)
    ensures Includes(hay, needle) <==> exists i :: OccursAt(hay, needle, i)
  {
    if Includes(hay, needle) {
      IncludesSome(hay, needle);
    }
    if exists i :: OccursAt(hay, needle, i) {
      var i :| OccursAt(hay, needle, i);
      OccursIncludes(hay, needle, i);
    }
  }

  /** A string that includes `needle` has an occurrence of it. */
  lemma {:induction false} IncludesSome(hay: string, needle: string)
    requires Includes(hay, needle)
    ensures exists i :: OccursAt(hay, needle, i)
    decreases |hay|
  {
    if needle <= hay {
      assert OccursAt(hay, needle, 0);
    } else {
      IncludesSome(hay[1..], needle);
      var i :| OccursAt(hay[1..], needle, i);
      assert hay[1..][i..i + |needle|] == hay[i + 1..i + 1 + |needle|];
      assert OccursAt(hay, needle, i + 1);
    }
  }

  /** An occurrence at position `i` makes `Includes` hold. */
  lemma {:induction false} OccursIncludes(hay: string, needle: string, i: int)
    requires OccursAt(hay, needle, i)
    ensures Includes(hay, needle)
    decreases i
  {
    if i == 0 {
      assert needle <= hay;
    } else {
      assert hay[1..][i - 1..i - 1 + |needle|] == hay[i..i + |needle|];
      OccursIncludes(hay[1..], needle, i - 1);
    }
  }

  /** A string that includes a word also includes every prefix of that word. */
  lemma {:induction false} IncludesPrefix(hay: string, word: string, prefix: string)
    requires prefix <= word
    requires Includes(hay, word)
    ensures Includes(hay, prefix)
    decreases |hay|
  {
    if word <= hay {
      assert prefix <= hay;
    } else {
      IncludesPrefix(hay[1..], word, prefix);
    }
  }
}
