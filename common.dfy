/** Vocabulary shared by the stores: optional and failing results, the
    ASCII string functions the stores rely on (strip, casefold, isdigit,
    decimal text), Python's order on strings, a stable sort, and the
    "largest id plus one" allocation every store uses. */
module Common {

  datatype Option<+T> = None | Some(value: T)

  datatype Result<+T, +E> = Success(value: T) | Failure(error: E)

  /** The outcome of an operation that answers True or False: done, or
      refused for a reason (the source prints the reason and returns False). */
  datatype Status<+E> = Done | Refused(reason: E)

  // ---------------------------------------------------------------- characters

  /** ASCII whitespace, as Python's str.isspace and str.strip see it. */
  predicate IsSpace(c: char) {
    c == ' ' || ('\t' <= c <= '\r') || ('\U{1C}' <= c <= '\U{1F}')
  }

  predicate IsDigit(c: char) {
    '0' <= c <= '9'
  }

  predicate IsLetter(c: char) {
    ('a' <= c <= 'z') || ('A' <= c <= 'Z')
  }

  /** ASCII lower case (Python's casefold restricted to ASCII). */
  function Lower(c: char): (r: char)
    ensures !('A' <= r <= 'Z')
    ensures ('a' <= r <= 'z') <==> IsLetter(c)
  {
    if 'A' <= c <= 'Z' then (c as int + 32) as char else c
  }

  function Casefold(s: string): (r: string)
    ensures |r| == |s|
    ensures forall i :: 0 <= i < |s| ==> r[i] == Lower(s[i])
    ensures forall i :: 0 <= i < |r| ==> !('A' <= r[i] <= 'Z')
    ensures forall i :: 0 <= i < |s| && !('A' <= s[i] <= 'Z') ==> r[i] == s[i]
  {
    seq(|s|, i requires 0 <= i < |s| => Lower(s[i]))
  }

  /** Folding folded text changes nothing. */
  lemma CasefoldIdempotent(s: string)
    ensures Casefold(Casefold(s)) == Casefold(s)
  {
    var r := Casefold(s);
    assert forall i :: 0 <= i < |r| ==> Casefold(r)[i] == r[i];
  }

  /** Two characters that are the same letter up to ASCII case, or equal. */
  predicate SameLetter(a: char, b: char) {
    || a == b
    || ('A' <= a <= 'Z' && b as int == a as int + 32)
    || ('A' <= b <= 'Z' && a as int == b as int + 32)
  }

  /** Two strings fold to the same text exactly when they agree character by
      character up to ASCII case. */
  lemma CasefoldSameUpToCase(a: string, b: string)
    ensures Casefold(a) == Casefold(b)
            <==> |a| == |b| && forall i :: 0 <= i < |a| ==> SameLetter(a[i], b[i])
  {
    if Casefold(a) == Casefold(b) {
      forall i | 0 <= i < |a| ensures SameLetter(a[i], b[i]) {
        assert Casefold(a)[i] == Casefold(b)[i];
      }
    }
    if |a| == |b| && forall i :: 0 <= i < |a| ==> SameLetter(a[i], b[i]) {
      assert forall i :: 0 <= i < |a| ==> Casefold(a)[i] == Casefold(b)[i];
    }
  }

  // ---------------------------------------------------------------- strip

  function TrimStart(s: string): (r: string)
    ensures |r| <= |s| && r == s[|s| - |r|..]
    ensures r == [] || !IsSpace(r[0])
    ensures forall i :: 0 <= i < |s| - |r| ==> IsSpace(s[i])
  {
    if s != [] && IsSpace(s[0]) then TrimStart(s[1..]) else s
  }

  function TrimEnd(s: string): (r: string)
    ensures |r| <= |s| && r == s[..|r|]
    ensures r == [] || !IsSpace(r[|r| - 1])
    ensures forall i :: |r| <= i < |s| ==> IsSpace(s[i])
  {
    if s != [] && IsSpace(s[|s| - 1]) then TrimEnd(s[..|s| - 1]) else s
  }

  /** Python's str.strip() with no argument: a slice of s that neither
      starts nor ends with whitespace, empty exactly when s is all
      whitespace. */
  function Trim(s: string): (r: string)
    ensures |r| <= |s|
    ensures r == [] || (!IsSpace(r[0]) && !IsSpace(r[|r| - 1]))
    ensures r == [] <==> forall i :: 0 <= i < |s| ==> IsSpace(s[i])
  {
    var t := TrimStart(s);
    var r := TrimEnd(t);
    assert r == [] ==> t == [] by {
      assert t != [] ==> IsSpace(t[0]) == (r == []);
    }
    r
  }

  /** `not s.strip()`: the string is empty or only whitespace. */
  predicate Blank(s: string) {
    Trim(s) == []
  }

  /** Stripping twice is stripping once, so a stored (stripped) name has
      the same comparison key as the name it was made from. */
  lemma TrimIdempotent(s: string)
    ensures Trim(Trim(s)) == Trim(s)
  {
    if Trim(s) != [] {
      TrimFixed(Trim(s));
    }
  }

  /** Text that neither starts nor ends with whitespace is left alone. */
  lemma TrimFixed(s: string)
    requires s != [] && !IsSpace(s[0]) && !IsSpace(s[|s| - 1])
    ensures Trim(s) == s
  {
    assert TrimStart(s) == s;
    assert TrimEnd(s) == s;
  }

  /** strip() removes only whitespace: every other character survives. */
  lemma TrimKeeps(s: string, i: int)
    requires 0 <= i < |s| && !IsSpace(s[i])
    ensures s[i] in Trim(s)
  {
    var t := TrimStart(s);
    var j := i - (|s| - |t|);
    assert 0 <= j && t[j] == s[i];
    assert j < |TrimEnd(t)| && TrimEnd(t)[j] == s[i];
  }

  // ---------------------------------------------------------------- digits

  predicate AllDigits(s: string) {
    forall i :: 0 <= i < |s| ==> IsDigit(s[i])
  }

  function DigitValue(c: char): (d: nat)
    requires IsDigit(c)
    ensures d <= 9
  {
    c as int - '0' as int
  }

  /** `int(s)` for a string of ASCII digits. */
  function DigitsValue(s: string): (n: nat)
    requires AllDigits(s)
  {
    if s == [] then 0 else DigitsValue(s[..|s| - 1]) * 10 + DigitValue(s[|s| - 1])
  }

  /** The digits of s in order: "".join(ch for ch in s if ch.isdigit()). */
  function DigitsOf(s: string): (r: string)
    ensures AllDigits(r) && |r| <= |s|
    ensures AllDigits(s) ==> r == s
  {
    if s == [] then [] else (if IsDigit(s[0]) then [s[0]] else []) + DigitsOf(s[1..])
  }

  function DigitChar(d: nat): (c: char)
    requires d <= 9
    ensures IsDigit(c) && DigitValue(c) == d
  {
    ('0' as int + d) as char
  }

  /** Decimal text of a natural number, as str(n) prints it. */
  function NatText(n: nat): (r: string)
    ensures r != [] && AllDigits(r)
    ensures DigitsValue(r) == n
  {
    if n < 10 then [DigitChar(n)]
    else
      var r := NatText(n / 10) + [DigitChar(n % 10)];
      assert r[..|r| - 1] == NatText(n / 10);
      r
  }

  /** Decimal text of an integer, as str(i) prints it. */
  function IntText(i: int): string {
    if i < 0 then "-" + NatText(-i) else NatText(i)
  }

  // ---------------------------------------------------------------- string order

  /** Python's `<=` on str: lexicographic by code point. */
  predicate StrLe(a: string, b: string) {
    a == [] || (b != [] && (a[0] < b[0] || (a[0] == b[0] && StrLe(a[1..], b[1..]))))
  }

  lemma {:induction false} StrLeTotal(a: string, b: string)
    ensures StrLe(a, b) || StrLe(b, a)
  {
    if a != [] && b != [] && a[0] == b[0] {
      StrLeTotal(a[1..], b[1..]);
    }
  }

  lemma {:induction false} StrLeTransitive(a: string, b: string, c: string)
    requires StrLe(a, b) && StrLe(b, c)
    ensures StrLe(a, c)
  {
    if a != [] && b != [] && c != [] && a[0] == b[0] && b[0] == c[0] {
      StrLeTransitive(a[1..], b[1..], c[1..]);
    }
  }

  lemma {:induction false} StrLeAntisymmetric(a: string, b: string)
    requires StrLe(a, b) && StrLe(b, a)
    ensures a == b
  {
    if a != [] && b != [] {
      StrLeAntisymmetric(a[1..], b[1..]);
      assert a == [a[0]] + a[1..] && b == [b[0]] + b[1..];
    }
  }

  /** Python's `<` on str. */
  predicate StrLt(a: string, b: string) {
    StrLe(a, b) && a != b
  }

  // ---------------------------------------------------------------- sorting

  /** `le` is a total preorder: any two values compare, and comparison chains. */
  ghost predicate TotalPreorder<T(!new)>(le: (T, T) -> bool) {
    && (forall a, b :: le(a, b) || le(b, a))
    && (forall a, b, c :: le(a, b) && le(b, c) ==> le(a, c))
  }

  /** The reversed comparison, for a descending sort. */
  function Flip<T>(le: (T, T) -> bool): (T, T) -> bool {
    (a: T, b: T) => le(b, a)
  }

  lemma FlipTotalPreorder<T(!new)>(le: (T, T) -> bool)
    requires TotalPreorder(le)
    ensures TotalPreorder(Flip(le))
  {
  }

  ghost predicate SortedBy<T>(s: seq<T>, le: (T, T) -> bool) {
    forall i, j :: 0 <= i < j < |s| ==> le(s[i], s[j])
  }

  /** Puts x in front of the first element it does not exceed. */
  function Insert<T>(x: T, s: seq<T>, le: (T, T) -> bool): (r: seq<T>)
    ensures multiset(r) == multiset(s) + multiset{x}
  {
    if s == [] || le(x, s[0]) then [x] + s
    else
      assert s == [s[0]] + s[1..];
      [s[0]] + Insert(x, s[1..], le)
  }

  /** Python's sorted() with a comparison: an insertion sort that is stable,
      because each element goes in front of the equal elements that follow it
      in the input. A descending sort (reverse=True) is SortBy with the
      comparison flipped, which keeps equal elements in input order as
      Python does. */
  function SortBy<T>(s: seq<T>, le: (T, T) -> bool): (r: seq<T>)
    ensures multiset(r) == multiset(s)
  {
    if s == [] then []
    else
      assert s == [s[0]] + s[1..];
      Insert(s[0], SortBy(s[1..], le), le)
  }

  lemma {:induction false} InsertSorted<T(!new)>(x: T, s: seq<T>, le: (T, T) -> bool)
    requires TotalPreorder(le)
    requires SortedBy(s, le)
    ensures SortedBy(Insert(x, s, le), le)
  {
    if s == [] || le(x, s[0]) {
    } else {
      var t := Insert(x, s[1..], le);
      InsertSorted(x, s[1..], le);
      assert le(s[0], x);
      forall k | 0 <= k < |t| ensures le(s[0], t[k]) {
        assert t[k] in multiset(t);
        assert t[k] == x || t[k] in multiset(s[1..]);
        if t[k] != x {
          var m :| 0 <= m < |s[1..]| && s[1..][m] == t[k];
          assert s[m + 1] == t[k];
        }
      }
      var r := [s[0]] + t;
      forall i, j | 0 <= i < j < |r| ensures le(r[i], r[j]) {
        if i > 0 {
          assert r[i] == t[i - 1] && r[j] == t[j - 1];
        } else {
          assert r[j] == t[j - 1];
        }
      }
    }
  }

  /** The result of SortBy is ordered by any total preorder. */
  lemma {:induction false} SortBySorted<T(!new)>(s: seq<T>, le: (T, T) -> bool)
    requires TotalPreorder(le)
    ensures SortedBy(SortBy(s, le), le)
  {
    if s != [] {
      SortBySorted(s[1..], le);
      InsertSorted(s[0], SortBy(s[1..], le), le);
    }
  }

  /** The elements of s that tie with y under le (each is `le` the other
      way round too), in their order in s. */
  function Ties<T>(s: seq<T>, y: T, le: (T, T) -> bool): (r: seq<T>)
    ensures |r| <= |s|
    ensures forall k :: 0 <= k < |r| ==> le(r[k], y) && le(y, r[k])
  {
    if s == [] then []
    else (if le(s[0], y) && le(y, s[0]) then [s[0]] else []) + Ties(s[1..], y, le)
  }

  lemma TiesCons<T>(x: T, s: seq<T>, y: T, le: (T, T) -> bool)
    ensures Ties([x] + s, y, le) == (if le(x, y) && le(y, x) then [x] else []) + Ties(s, y, le)
  {
    assert ([x] + s)[1..] == s;
  }

  /** Insertion never moves x past an element it ties with, so every tie
      class keeps its order. */
  lemma {:induction false} InsertStable<T(!new)>(x: T, s: seq<T>, y: T, le: (T, T) -> bool)
    requires TotalPreorder(le)
    ensures Ties(Insert(x, s, le), y, le) == Ties([x] + s, y, le)
  {
    if s != [] && !le(x, s[0]) {
      InsertStable(x, s[1..], y, le);
      assert !(le(x, y) && le(y, s[0]));
      InsertPastStable(x, s, y, le);
    }
  }

  /** One step of InsertStable: x passes s[0], which cannot tie with y
      when x does. */
  lemma InsertPastStable<T>(x: T, s: seq<T>, y: T, le: (T, T) -> bool)
    requires s != [] && !le(x, s[0])
    requires !(le(x, y) && le(y, s[0]))
    requires Ties(Insert(x, s[1..], le), y, le) == Ties([x] + s[1..], y, le)
    ensures Ties(Insert(x, s, le), y, le) == Ties([x] + s, y, le)
  {
    var h, t := s[0], s[1..];
    assert s == [h] + t;
    assert Insert(x, s, le) == [h] + Insert(x, t, le);
    TiesCons(h, Insert(x, t, le), y, le);
    TiesCons(x, t, y, le);
    TiesCons(x, s, y, le);
    TiesCons(h, t, y, le);
    if le(h, y) && le(y, h) {
      assert !le(x, y);
      assert Ties([x] + t, y, le) == Ties(t, y, le);
      assert Ties([x] + s, y, le) == Ties(s, y, le) == [h] + Ties(t, y, le);
      assert Ties(Insert(x, s, le), y, le) == [h] + Ties([x] + t, y, le);
    } else if le(x, y) && le(y, x) {
      assert !le(y, h);
      assert Ties(s, y, le) == Ties(t, y, le);
      assert Ties(Insert(x, s, le), y, le) == Ties([x] + t, y, le) == [x] + Ties(t, y, le);
      assert Ties([x] + s, y, le) == [x] + Ties(s, y, le);
    } else {
      assert Ties(Insert(x, s, le), y, le) == Ties([x] + t, y, le) == Ties(t, y, le);
      assert Ties([x] + s, y, le) == Ties(s, y, le) == Ties(t, y, le);
    }
  }




  /** SortBy is stable: the elements that tie with any y come out in the
      order they went in. */
  lemma {:induction false} SortByStable<T(!new)>(s: seq<T>, le: (T, T) -> bool)
    requires TotalPreorder(le)
    ensures forall y :: Ties(SortBy(s, le), y, le) == Ties(s, y, le)
  {
    if s != [] {
      SortByStable(s[1..], le);
      forall y ensures Ties(SortBy(s, le), y, le) == Ties(s, y, le) {
        InsertStable(s[0], SortBy(s[1..], le), y, le);
        TiesCons(s[0], SortBy(s[1..], le), y, le);
        assert s == [s[0]] + s[1..];
        TiesCons(s[0], s[1..], y, le);
      }
    }
  }

  // ---------------------------------------------------------------- traversal

  /** Applies `f` to every element in order and stops at the first
      failure: all the results, or that failure. */
  function Traverse<A, B, E>(xs: seq<A>, f: A -> Result<B, E>): (r: Result<seq<B>, E>)
    ensures r.Success? <==> forall k :: 0 <= k < |xs| ==> f(xs[k]).Success?
    ensures r.Success? ==> |r.value| == |xs|
    ensures r.Success? ==> forall k :: 0 <= k < |xs| ==> r.value[k] == f(xs[k]).value
  {
    if xs == [] then Success([])
    else
      match Traverse(xs[..|xs| - 1], f)
      case Failure(e) => Failure(e)
      case Success(ys) =>
        match f(xs[|xs| - 1])
        case Failure(e) => Failure(e)
        case Success(y) => Success(ys + [y])
  }

  /** A failure is the first element's failure: later elements are not
      looked at. */
  lemma {:induction false} TraverseFirstFailure<A, B, E>(xs: seq<A>, f: A -> Result<B, E>, k: int)
    requires 0 <= k < |xs| && f(xs[k]).Failure?
    requires forall m :: 0 <= m < k ==> f(xs[m]).Success?
    ensures Traverse(xs, f) == Failure(f(xs[k]).error)
  {
    var init := xs[..|xs| - 1];
    if k < |xs| - 1 {
      TraverseFirstFailure(init, f, k);
    } else {
      assert Traverse(init, f).Success? by {
        forall m | 0 <= m < |init| ensures f(init[m]).Success? {
          assert init[m] == xs[m];
        }
      }
    }
  }

  // ---------------------------------------------------------------- ids

  /** The allocation loop every store repeats: the largest existing id,
      starting from 0, plus one. The result is at least 1, exceeds every
      id, and is the smallest such value above the largest id. */
  method NextId(ids: seq<int>) returns (r: int)
    ensures r >= 1
    ensures forall i :: 0 <= i < |ids| ==> ids[i] < r
    ensures r == 1 || r - 1 in ids
  {
    var maxId := 0;
    for i := 0 to |ids|
      invariant maxId >= 0
      invariant forall k :: 0 <= k < i ==> ids[k] <= maxId
      invariant maxId == 0 || maxId in ids[..i]
    {
      if ids[i] > maxId {
        maxId := ids[i];
      }
    }
    r := if maxId >= 0 then maxId + 1 else 1;
  }
}
