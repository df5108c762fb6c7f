/**
 * Participant identity (class `Name` of conversation.py).
 *
 * A name is keyed by its full name: Python's `__eq__` and `__hash__` look only at
 * `full_name`, so the datatype holds only that field and Dafny's equality is the
 * source's equality. The first and last names are the two whitespace-separated
 * tokens that `str.split()` yields; construction fails unless there are exactly two.
 * The order `<` is deliberately reversed: `a < b` holds when `a.full_name > b.full_name`.
 */
module Names {
  import opened Base
  import opened Dicts

  // ---------------------------------------------------------------------------
  // str.split() with no separator

  /** The code points Python's `str.isspace()` accepts, which `str.split()` splits on. */
  predicate IsSpace(c: char) {
    || c == ' ' || ('\t' <= c <= '\r') || ('\U{1c}' <= c <= '\U{1f}') || c == '\U{85}' || c == '\U{a0}'
    || c == '\U{1680}' || ('\U{2000}' <= c <= '\U{200a}') || c == '\U{2028}' || c == '\U{2029}'
    || c == '\U{202f}' || c == '\U{205f}' || c == '\U{3000}'
  }

  /** A token of `str.split()`: non-empty and free of whitespace. */
  predicate IsWord(w: string) {
    |w| > 0 && forall i :: 0 <= i < |w| ==> !IsSpace(w[i])
  }

  /** The length of the longest whitespace-free prefix of `s`. */
  function WordLen(s: string): (n: nat)
    ensures n <= |s|
    ensures forall i :: 0 <= i < n ==> !IsSpace(s[i])
    ensures n < |s| ==> IsSpace(s[n])
  {
    if s == [] || IsSpace(s[0]) then 0 else 1 + WordLen(s[1..])
  }

  /**
   * `s.split()`: the maximal runs of non-whitespace characters, in order;
   * leading, trailing and repeated whitespace produce no empty tokens.
   */
  function Words(s: string): (ws: seq<string>)
    ensures forall i :: 0 <= i < |ws| ==> IsWord(ws[i])
    decreases |s|
  {
    if s == [] then []
    else if IsSpace(s[0]) then Words(s[1..])
    else
      var n := WordLen(s);
      [s[..n]] + Words(s[n..])
  }

  /** `" ".join(ws)`, the partner of `Words`. */
  function Join(ws: seq<string>): string {
    if ws == [] then "" else if |ws| == 1 then ws[0] else ws[0] + " " + Join(ws[1..])
  }

  /** A word followed by whitespace (or nothing) is split off as the first token. */
  lemma WordsOfWordThen(w: string, rest: string)
    requires IsWord(w)
    requires rest == [] || IsSpace(rest[0])
    ensures Words(w + rest) == [w] + Words(rest)
  {
    var s := w + rest;
    WordLenOfWordThen(w, rest);
    assert s[..|w|] == w && s[|w|..] == rest;
  }

  lemma {:induction false} WordLenOfWordThen(w: string, rest: string)
    requires IsWord(w)
    requires rest == [] || IsSpace(rest[0])
    ensures WordLen(w + rest) == |w|
    decreases |w|
  {
    var s := w + rest;
    assert s[0] == w[0];
    if |w| > 1 {
      assert s[1..] == w[1..] + rest;
      WordLenOfWordThen(w[1..], rest);
    } else {
      assert s[1..] == rest;
    }
  }

  /** Splitting the single-space join of words gives the words back. */
  lemma {:induction false} WordsJoin(ws: seq<string>)
    requires forall i :: 0 <= i < |ws| ==> IsWord(ws[i])
    ensures Words(Join(ws)) == ws
  {
    if ws == [] {
    } else if |ws| == 1 {
      WordsOfWordThen(ws[0], "");
      assert ws[0] + "" == ws[0];
    } else {
      var rest := " " + Join(ws[1..]);
      WordsOfWordThen(ws[0], rest);
      assert ws[0] + " " + Join(ws[1..]) == ws[0] + rest;
      assert rest[1..] == Join(ws[1..]);
      WordsJoin(ws[1..]);
    }
  }

  // ---------------------------------------------------------------------------
  // Name

  datatype Name = Name(fullName: string) {
    /** `first_name`, defined for the names the constructor accepts. */
    function FirstName(): string
      requires |Words(fullName)| == 2
    {
      Words(fullName)[0]
    }

    /** `last_name`, defined for the names the constructor accepts. */
    function LastName(): string
      requires |Words(fullName)| == 2
    {
      Words(fullName)[1]
    }
  }

  /**
   * `Name(name)`: the tuple unpacking `first, last = name.split()` raises
   * `ValueError` unless the name splits into exactly two tokens; the full name is
   * kept verbatim (surrounding or repeated whitespace included).
   */
  function MakeName(s: string): (r: Result<Name>)
    ensures r.Ok? <==> |Words(s)| == 2
    ensures r.Ok? ==> r.value.fullName == s
    ensures r.Err? ==> r.error.ValueError?
  {
    if |Words(s)| == 2 then Ok(Name(s)) else Err(ValueError(s))
  }

  /** "First Last" is accepted, and the two tokens are the first and last name. */
  lemma NameRoundTrip(first: string, last: string)
    requires IsWord(first) && IsWord(last)
    ensures MakeName(first + " " + last).Ok?
    ensures MakeName(first + " " + last).value.FirstName() == first
    ensures MakeName(first + " " + last).value.LastName() == last
  {
    assert Join([first, last]) == first + " " + Join([last]);
    WordsJoin([first, last]);
  }

  /** A name with a single token is refused. */
  lemma MakeNameRefusesOneToken(w: string)
    requires IsWord(w)
    ensures MakeName(w).Err?
  {
    WordsOfWordThen(w, "");
    assert w + "" == w;
  }

  // ---------------------------------------------------------------------------
  // Python's str comparison and the reversed `Name.__lt__`

  /**
   * `a` and `b` agree before position `k`, and at `k` either `a` has ended while
   * `b` goes on, or both go on and `a` has the smaller code point.
   */
  predicate FirstDifference(a: string, b: string, k: nat) {
    && k <= |a| && k <= |b| && a[..k] == b[..k]
    && if k == |a| then k < |b| else k < |b| && a[k] < b[k]
  }

  /** How `FirstDifference` behaves on the first characters of `a` and `b`. */
  lemma FirstDifferenceCases(a: string, b: string)
    ensures a == [] ==> ((exists k :: FirstDifference(a, b, k)) <==> b != [])
    ensures a != [] && b == [] ==> !exists k :: FirstDifference(a, b, k)
    ensures a != [] && b != [] && a[0] != b[0] ==> ((exists k :: FirstDifference(a, b, k)) <==> a[0] < b[0])
    ensures a != [] && b != [] && a[0] == b[0] ==>
      ((exists k :: FirstDifference(a, b, k)) <==> exists k :: FirstDifference(a[1..], b[1..], k))
  {
    if a == [] && b != [] {
      assert FirstDifference(a, b, 0);
    }
    if a != [] && b != [] {
      if a[0] != b[0] {
        forall k: nat | FirstDifference(a, b, k)
          ensures k == 0
        {
        }
        if a[0] < b[0] {
          assert FirstDifference(a, b, 0);
        }
      } else {
        forall k: nat | FirstDifference(a, b, k)
          ensures k > 0 && FirstDifference(a[1..], b[1..], k - 1)
        {
          assert k > 0;
          assert a[1..][..k - 1] == a[..k][1..];
          assert b[1..][..k - 1] == b[..k][1..];
        }
        forall k: nat | FirstDifference(a[1..], b[1..], k)
          ensures FirstDifference(a, b, k + 1)
        {
          assert a[..k + 1] == [a[0]] + a[1..][..k];
          assert b[..k + 1] == [b[0]] + b[1..][..k];
        }
      }
    }
  }

  /**
   * Python's `a < b` on str: lexicographic by code point, a proper prefix is
   * smaller; that is, `a` comes first at the first position where they differ.
   */
  predicate StrLess(a: string, b: string)
    ensures StrLess(a, b) <==> exists k :: FirstDifference(a, b, k)
  {
    FirstDifferenceCases(a, b);
    if a == [] then b != []
    else if b == [] then false
    else if a[0] != b[0] then a[0] < b[0]
    else StrLess(a[1..], b[1..])
  }

  lemma {:induction false} StrLessIrreflexive(a: string)
    ensures !StrLess(a, a)
  {
    if a != [] {
      StrLessIrreflexive(a[1..]);
    }
  }

  lemma {:induction false} StrLessTransitive(a: string, b: string, c: string)
    requires StrLess(a, b) && StrLess(b, c)
    ensures StrLess(a, c)
  {
    if a != [] && a[0] == b[0] && b[0] == c[0] {
      StrLessTransitive(a[1..], b[1..], c[1..]);
    }
  }

  lemma {:induction false} StrLessTotal(a: string, b: string)
    requires a != b
    ensures StrLess(a, b) || StrLess(b, a)
  {
    if a != [] && b != [] && a[0] == b[0] {
      assert a == [a[0]] + a[1..] && b == [b[0]] + b[1..];
      StrLessTotal(a[1..], b[1..]);
    }
  }

  lemma {:induction false} StrLessAsymmetric(a: string, b: string)
    requires StrLess(a, b)
    ensures !StrLess(b, a)
  {
    if a != [] && b != [] && a[0] == b[0] {
      StrLessAsymmetric(a[1..], b[1..]);
    }
  }

  /**
   * `Name.__lt__`: `a < b` exactly when `a.full_name > b.full_name`, that is, when
   * `b`'s full name comes first where the two differ.
   */
  predicate NameLess(a: Name, b: Name)
    ensures NameLess(a, b) <==> exists k :: FirstDifference(b.fullName, a.fullName, k)
  {
    StrLess(b.fullName, a.fullName)
  }

  /** The reversed order is a strict total order on names. */
  lemma NameLessIsStrictTotalOrder(a: Name, b: Name, c: Name)
    ensures !NameLess(a, a)
    ensures NameLess(a, b) ==> !NameLess(b, a)
    ensures NameLess(a, b) && NameLess(b, c) ==> NameLess(a, c)
    ensures a != b ==> NameLess(a, b) || NameLess(b, a)
  {
    StrLessIrreflexive(a.fullName);
    if NameLess(a, b) {
      StrLessAsymmetric(b.fullName, a.fullName);
      if NameLess(b, c) {
        StrLessTransitive(c.fullName, b.fullName, a.fullName);
      }
    }
    if a != b {
      StrLessTotal(a.fullName, b.fullName);
    }
  }

  // ---------------------------------------------------------------------------
  // sorted(..., key=name) under the reversed order

  /** Sorted ascending under `Name.__lt__`: no later name is `<` an earlier one. */
  ghost predicate Ordered(s: seq<Name>) {
    forall i, j :: 0 <= i < j < |s| ==> !NameLess(s[j], s[i])
  }

  /** Inserting `x` after the names it is not `<`. */
  function Insert(x: Name, s: seq<Name>): (r: seq<Name>)
    requires Ordered(s)
    ensures Ordered(r)
    ensures multiset(r) == multiset(s) + multiset{x}
  {
    if s == [] then [x]
    else if NameLess(x, s[0]) then
      assert forall j :: 0 <= j < |s| ==> !NameLess(s[j], x) by {
        forall j | 0 <= j < |s|
          ensures !NameLess(s[j], x)
        {
          NameLessIsStrictTotalOrder(s[j], x, s[0]);
        }
      }
      [x] + s
    else
      var rest := Insert(x, s[1..]);
      assert s == [s[0]] + s[1..];
      assert forall j :: 0 <= j < |rest| ==> !NameLess(rest[j], s[0]) by {
        forall j | 0 <= j < |rest|
          ensures !NameLess(rest[j], s[0])
        {
          assert rest[j] in multiset(s[1..]) + multiset{x};
          if rest[j] != x {
            assert rest[j] in s[1..];
          } else {
            NameLessIsStrictTotalOrder(x, s[0], x);
          }
        }
      }
      [s[0]] + rest
  }

  lemma {:induction false} InsertDistinct(x: Name, s: seq<Name>)
    requires Ordered(s) && Distinct(s) && x !in s
    ensures Distinct(Insert(x, s))
  {
    if s != [] && !NameLess(x, s[0]) {
      var rest := Insert(x, s[1..]);
      InsertDistinct(x, s[1..]);
      assert s[0] !in multiset(rest);
    }
  }

  /** `sorted(names)` with the reversed `Name.__lt__`: full names in descending order. */
  function SortNames(s: seq<Name>): (r: seq<Name>)
    ensures Ordered(r)
    ensures multiset(r) == multiset(s)
    ensures Distinct(s) ==> Distinct(r)
  {
    if s == [] then []
    else
      assert s == [s[0]] + s[1..];
      var rest := SortNames(s[1..]);
      SortKeepsDistinct(s, rest);
      Insert(s[0], rest)
  }

  lemma SortKeepsDistinct(s: seq<Name>, rest: seq<Name>)
    requires s != [] && Ordered(rest) && multiset(rest) == multiset(s[1..])
    ensures Distinct(s) ==> Distinct(Insert(s[0], rest))
  {
    if Distinct(s) {
      assert Distinct(rest) by {
        forall i, j | 0 <= i < j < |rest|
          ensures rest[i] != rest[j]
        {
          if rest[i] == rest[j] {
            assert multiset(rest)[rest[i]] >= 2 by {
              assert rest == rest[..j] + [rest[j]] + rest[j + 1..];
              assert rest[i] in rest[..j];
            }
            DistinctCountsOnce(s[1..], rest[i]);
            assert false;
          }
        }
      }
      assert s[0] !in multiset(rest);
      InsertDistinct(s[0], rest);
    }
  }

  lemma {:induction false} DistinctCountsOnce(s: seq<Name>, x: Name)
    requires Distinct(s)
    ensures multiset(s)[x] <= 1
  {
    if s != [] {
      assert s == [s[0]] + s[1..];
      assert Distinct(s[1..]) by {
        forall i, j | 0 <= i < j < |s[1..]|
          ensures s[1..][i] != s[1..][j]
        {
          assert s[1..][i] == s[i + 1] && s[1..][j] == s[j + 1];
        }
      }
      DistinctCountsOnce(s[1..], x);
      if x == s[0] {
        assert x !in s[1..];
      }
    }
  }

  /** Sorting under the reversed order leaves no choice: sorted permutations are equal. */
  lemma {:induction false} OrderedUnique(a: seq<Name>, b: seq<Name>)
    requires Ordered(a) && Ordered(b) && multiset(a) == multiset(b)
    ensures a == b
  {
    if a != [] {
      OrderedHeadsAgree(a, b);
      assert multiset(a[1..]) == multiset(b[1..]) by {
        assert a == [a[0]] + a[1..];
        assert b == [b[0]] + b[1..];
        assert multiset(a) == multiset(a[1..]) + multiset{a[0]};
        assert multiset(b) == multiset(b[1..]) + multiset{b[0]};
        MultisetCancel(multiset(a[1..]), multiset(b[1..]), a[0]);
      }
      OrderedUnique(a[1..], b[1..]);
      assert a == [a[0]] + a[1..];
      assert b == [b[0]] + b[1..];
    }
  }

  lemma OrderedHeadsAgree(a: seq<Name>, b: seq<Name>)
    requires Ordered(a) && Ordered(b) && multiset(a) == multiset(b) && a != []
    ensures b != [] && a[0] == b[0]
  {
    assert a[0] in multiset(b);
    var k :| 0 <= k < |b| && b[k] == a[0];
    assert b[0] in multiset(a);
    var m :| 0 <= m < |a| && a[m] == b[0];
    NameLessIsStrictTotalOrder(a[0], b[0], a[0]);
  }

  /** Distinct sorted names are listed in strictly descending full-name order. */
  lemma OrderedIsDescending(s: seq<Name>)
    requires Ordered(s) && Distinct(s)
    ensures forall i, j :: 0 <= i < j < |s| ==> StrLess(s[j].fullName, s[i].fullName)
  {
    forall i, j | 0 <= i < j < |s|
      ensures StrLess(s[j].fullName, s[i].fullName)
    {
      NameLessIsStrictTotalOrder(s[i], s[j], s[i]);
    }
  }
}
