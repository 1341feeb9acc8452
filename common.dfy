/** Shared vocabulary of the model: optional values and the order-preserving
    filter that every list view of the application is built from. */
module Common {

  datatype Option<+T> = None | Some(value: T)

  /** A value, or the reason it could not be produced (an exception in the source). */
  datatype Result<+T, +E> = Ok(value: T) | Err(error: E)

  /** The elements of `s` that satisfy `p`, in their original order: what
      JavaScript's `Array.prototype.filter` and Python's filtering loops compute. */
  function Keep<T>(s: seq<T>, p: T -> bool): (r: seq<T>)
    ensures |r| <= |s|
    ensures forall i :: 0 <= i < |r| ==> p(r[i]) && r[i] in s
    ensures forall i :: 0 <= i < |s| && p(s[i]) ==> s[i] in r
  {
    if s == [] then [] else (if p(s[0]) then [s[0]] else []) + Keep(s[1..], p)
  }

  /** `s` with later repetitions of a value dropped, first occurrences kept in
      order: what `Array.from(new Set(s))` computes. */
  function Dedup<T(==)>(s: seq<T>): (r: seq<T>)
    ensures forall i, j :: 0 <= i < j < |r| ==> r[i] != r[j]
    ensures forall i :: 0 <= i < |r| ==> r[i] in s
    ensures forall i :: 0 <= i < |s| ==> s[i] in r
  {
    if s == [] then []
    else
      var d := Dedup(s[..|s| - 1]);
      var last := s[|s| - 1];
      assert s == s[..|s| - 1] + [last];
      if last in d then d else d + [last]
  }

  /** The position of the first occurrence of `x` in `s`. */
  function FirstAt<T(==)>(s: seq<T>, x: T): (k: nat)
    requires x in s
    ensures k < |s| && s[k] == x
    ensures forall j :: 0 <= j < k ==> s[j] != x
  {
    if s[0] == x then 0 else 1 + FirstAt(s[1..], x)
  }

  /** Appending an element does not move the first occurrence of a value
      that was already there. */
  lemma FirstAtSnoc<T>(s: seq<T>, y: T, x: T)
    requires x in s
    ensures FirstAt(s + [y], x) == FirstAt(s, x)
  {
    var b := FirstAt(s, x);
    assert (s + [y])[b] == s[b];
  }

  /** `Dedup` lists the values in the order of their first occurrences. */
  lemma {:induction false} DedupKeepsFirstOrder<T>(s: seq<T>)
    ensures forall i, j :: 0 <= i < j < |Dedup(s)| ==> FirstAt(s, Dedup(s)[i]) < FirstAt(s, Dedup(s)[j])
  {
    if s != [] {
      var n := |s| - 1;
      var init, last := s[..n], s[n];
      DedupKeepsFirstOrder(init);
      var d := Dedup(init);
      assert s == init + [last];
      forall x | x in init ensures FirstAt(s, x) == FirstAt(init, x) {
        FirstAtSnoc(init, last, x);
      }
      if last !in d {
        assert last !in init;
        assert FirstAt(s, last) == n;
        assert Dedup(s) == d + [last];
      }
    }
  }

  /** `a` is `b` with some elements left out and the rest kept in order. */
  predicate Subseq<T(==)>(a: seq<T>, b: seq<T>)
    decreases |b|
  {
    a == [] || (b != [] && ((a[0] == b[0] && Subseq(a[1..], b[1..])) || Subseq(a, b[1..])))
  }

  /** The length of the longest prefix of `s` whose elements satisfy `p`:
      the position of the first element that does not, or `|s|`. */
  function CountWhile<T>(s: seq<T>, p: T -> bool): (n: nat)
    ensures n <= |s|
    ensures forall i :: 0 <= i < n ==> p(s[i])
    ensures n < |s| ==> !p(s[n])
  {
    if s == [] || !p(s[0]) then 0 else 1 + CountWhile(s[1..], p)
  }

  /** Truthiness of an optional string in JavaScript and Python alike:
      present and not empty. */
  predicate Truthy(s: Option<string>)
  {
    s.Some? && s.value != ""
  }

  /** The position of the first truthy option, or the length when none is. */
  function FirstTruthyAt(options: seq<Option<string>>): (k: nat)
    ensures k <= |options|
    ensures forall j :: 0 <= j < k ==> !Truthy(options[j])
    ensures k < |options| ==> Truthy(options[k])
  {
    if options == [] || Truthy(options[0]) then 0 else 1 + FirstTruthyAt(options[1..])
  }

  /** `a || b || ... || fallback` (Python: `a or b or ... or fallback`): the
      first truthy option, or the fallback when none is truthy. */
  function FirstTruthy(options: seq<Option<string>>, fallback: string): (r: string)
    ensures (forall i :: 0 <= i < |options| ==> !Truthy(options[i])) ==> r == fallback
    ensures forall i :: 0 <= i < |options| && Truthy(options[i]) && (forall j :: 0 <= j < i ==> !Truthy(options[j])) ==>
      r == options[i].value
  {
    var k := FirstTruthyAt(options);
    if k < |options| then options[k].value else fallback
  }

  /** A filter never reorders: its result is a subsequence of its input. */
  lemma {:induction false} KeepIsSubseq<T>(s: seq<T>, p: T -> bool)
    ensures Subseq(Keep(s, p), s)
  {
    if s != [] {
      KeepIsSubseq(s[1..], p);
      var k := Keep(s[1..], p);
      if p(s[0]) {
        assert Keep(s, p) == [s[0]] + k;
        assert ([s[0]] + k)[1..] == k;
      } else {
        assert Keep(s, p) == k;
      }
    }
  }

  /** Filtering distributes over concatenation, so the filtered items of an
      earlier part of the list come before those of a later part. */
  lemma {:induction false} KeepAppend<T>(a: seq<T>, b: seq<T>, p: T -> bool)
    ensures Keep(a + b, p) == Keep(a, p) + Keep(b, p)
  {
    if a == [] {
      assert a + b == b;
    } else {
      assert (a + b)[0] == a[0];
      assert (a + b)[1..] == a[1..] + b;
      KeepAppend(a[1..], b, p);
    }
  }

  /** Filtering twice with the same predicate is filtering once. */
  lemma {:induction false} KeepIdempotent<T>(s: seq<T>, p: T -> bool)
    ensures Keep(Keep(s, p), p) == Keep(s, p)
  {
    if s != [] {
      KeepIdempotent(s[1..], p);
      var head := if p(s[0]) then [s[0]] else [];
      KeepAppend(head, Keep(s[1..], p), p);
      if p(s[0]) {
        assert Keep(head, p) == [s[0]] + Keep([], p);
      }
    }
  }

  /** A predicate every element satisfies keeps the whole list. */
  lemma {:induction false} KeepAll<T>(s: seq<T>, p: T -> bool)
    ensures (forall i :: 0 <= i < |s| ==> p(s[i])) ==> Keep(s, p) == s
  {
    if s != [] {
      KeepAll(s[1..], p);
      if forall i :: 0 <= i < |s| ==> p(s[i]) {
        assert forall i :: 0 <= i < |s| - 1 ==> p(s[1..][i]) by {
          forall i | 0 <= i < |s| - 1 ensures p(s[1..][i]) { assert s[1..][i] == s[i + 1]; }
        }
        assert s == [s[0]] + s[1..];
      }
    }
  }

  /** A predicate no element satisfies keeps nothing. */
  lemma {:induction false} KeepNone<T>(s: seq<T>, p: T -> bool)
    ensures (forall i :: 0 <= i < |s| ==> !p(s[i])) ==> Keep(s, p) == []
  {
    if s != [] {
      KeepNone(s[1..], p);
      if forall i :: 0 <= i < |s| ==> !p(s[i]) {
        assert forall i :: 0 <= i < |s| - 1 ==> !p(s[1..][i]) by {
          forall i | 0 <= i < |s| - 1 ensures !p(s[1..][i]) { assert s[1..][i] == s[i + 1]; }
        }
      }
    }
  }

  /** A filter keeps every copy of a selected value and no copy of any
      other: the multiplicity of each value in the result is its
      multiplicity in the input when it is selected, and zero otherwise. */
  lemma {:induction false} KeepCounts<T>(s: seq<T>, p: T -> bool)
    ensures forall x :: multiset(Keep(s, p))[x] == if p(x) then multiset(s)[x] else 0
  {
    if s != [] {
      KeepCounts(s[1..], p);
      var head := if p(s[0]) then [s[0]] else [];
      assert s == [s[0]] + s[1..];
      assert Keep(s, p) == head + Keep(s[1..], p);
      assert multiset(s) == multiset([s[0]]) + multiset(s[1..]);
      assert multiset(Keep(s, p)) == multiset(head) + multiset(Keep(s[1..], p));
    }
  }

  /** The positions of `s` whose element `p` selects. */
  function Selected<T>(s: seq<T>, p: T -> bool): set<int>
  {
    set i | 0 <= i < |s| && p(s[i])
  }

  /** The length of a filtered list is the number of positions whose
      element the predicate selects. */
  lemma {:induction false} KeepSize<T>(s: seq<T>, p: T -> bool)
    ensures |Keep(s, p)| == |Selected(s, p)|
  {
    if s != [] {
      var n := |s| - 1;
      KeepSize(s[..n], p);
      assert s == s[..n] + [s[n]];
      KeepAppend(s[..n], [s[n]], p);
      assert Keep([s[n]], p) == if p(s[n]) then [s[n]] else [] by {
        assert [s[n]][1..] == [];
      }
      SelectedSnoc(s, p);
    }
  }

  /** Extending a list by one element adds its position to the selected
      ones exactly when the predicate selects it. */
  lemma SelectedSnoc<T>(s: seq<T>, p: T -> bool)
    requires s != []
    ensures |Selected(s, p)| == |Selected(s[..|s| - 1], p)| + (if p(s[|s| - 1]) then 1 else 0)
  {
    var n := |s| - 1;
    var before := Selected(s[..n], p);
    assert n !in before;
    if p(s[n]) {
      assert Selected(s, p) == before + {n};
    } else {
      assert Selected(s, p) == before;
    }
  }

  /** Two predicates that never hold together split the elements selected by
      their disjunction `r` between them, occurrence by occurrence. */
  lemma KeepSplit<T>(s: seq<T>, p: T -> bool, q: T -> bool, r: T -> bool)
    requires forall x :: !(p(x) && q(x))
    requires forall x :: r(x) <==> p(x) || q(x)
    ensures multiset(Keep(s, p)) + multiset(Keep(s, q)) == multiset(Keep(s, r))
  {
    KeepCounts(s, p);
    KeepCounts(s, q);
    KeepCounts(s, r);
    forall x ensures (multiset(Keep(s, p)) + multiset(Keep(s, q)))[x] == multiset(Keep(s, r))[x] {
      assert !(p(x) && q(x)) && (r(x) <==> p(x) || q(x));
    }
  }
}

/** Character and string helpers: the ASCII part of the case mappings, the
    substring test behind `includes`, and decimal digit strings. */
module Text {

  function LowerChar(c: char): char
  {
    if 'A' <= c <= 'Z' then (c as int + 32) as char else c
  }

  function UpperChar(c: char): char
  {
    if 'a' <= c <= 'z' then (c as int - 32) as char else c
  }

  /** `toLowerCase()` / `lower()` restricted to ASCII letters. */
  function Lower(s: string): (r: string)
    ensures |r| == |s|
    ensures forall i :: 0 <= i < |r| ==> !('A' <= r[i] <= 'Z')
    ensures forall i :: 0 <= i < |s| && 'A' <= s[i] <= 'Z' ==> r[i] as int == s[i] as int + 32
    ensures forall i :: 0 <= i < |s| && !('A' <= s[i] <= 'Z') ==> r[i] == s[i]
  {
    seq(|s|, i requires 0 <= i < |s| => LowerChar(s[i]))
  }

  /** `toUpperCase()` / `upper()` restricted to ASCII letters. */
  function Upper(s: string): (r: string)
    ensures |r| == |s|
    ensures forall i :: 0 <= i < |r| ==> !('a' <= r[i] <= 'z')
    ensures forall i :: 0 <= i < |s| && 'a' <= s[i] <= 'z' ==> r[i] as int == s[i] as int - 32
    ensures forall i :: 0 <= i < |s| && !('a' <= s[i] <= 'z') ==> r[i] == s[i]
  {
    seq(|s|, i requires 0 <= i < |s| => UpperChar(s[i]))
  }

  /** Lower-casing forgets what upper-casing did: both sides of a
      case-insensitive comparison are the same after `Upper`. */
  lemma LowerAfterUpper(s: string)
    ensures Lower(Upper(s)) == Lower(s)
  {
    var u := Upper(s);
    forall i | 0 <= i < |s|
      ensures Lower(u)[i] == Lower(s)[i]
    {
      if 'a' <= s[i] <= 'z' {
        assert 'A' <= u[i] <= 'Z';
        assert Lower(u)[i] as int == u[i] as int + 32 == s[i] as int;
      } else {
        assert u[i] == s[i];
      }
    }
  }

  /** JavaScript's `hay.includes(needle)` and Python's `needle in hay`. */
  predicate Contains(hay: string, needle: string)
    ensures needle == "" ==> Contains(hay, needle)
    ensures Contains(hay, needle) ==> |needle| <= |hay|
  {
    assert needle == "" ==> needle <= hay[0..];
    exists i :: 0 <= i <= |hay| && needle <= hay[i..]
  }

  predicate IsDigit(c: char) { '0' <= c <= '9' }

  predicate AllDigits(s: string) { forall i :: 0 <= i < |s| ==> IsDigit(s[i]) }

  function DigitValue(c: char): nat
    requires IsDigit(c)
  {
    c as int - '0' as int
  }

  function DigitChar(d: nat): (c: char)
    requires d < 10
    ensures IsDigit(c) && DigitValue(c) == d
  {
    ('0' as int + d) as char
  }

  function Pow10(n: nat): (r: nat)
    ensures r >= 1
  {
    if n == 0 then 1 else 10 * Pow10(n - 1)
  }

  /** The number a string of decimal digits denotes, most significant digit first. */
  function Value(s: string): nat
    requires AllDigits(s)
  {
    if s == [] then 0 else DigitValue(s[0]) * Pow10(|s| - 1) + Value(s[1..])
  }

  /** `n` digits denote less than 10^n. */
  lemma {:induction false} ValueBelow(s: string)
    requires AllDigits(s)
    ensures Value(s) < Pow10(|s|)
  {
    if s != [] {
      ValueBelow(s[1..]);
      var d, p, v := DigitValue(s[0]), Pow10(|s| - 1), Value(s[1..]);
      assert Value(s) == d * p + v;
      assert Pow10(|s|) == 10 * p;
      LeadingTermDecides(d, 10, p, v, 0);
    }
  }

  /** `da·p + va < db·p + vb` when `da < db` and `va < p`. */
  lemma LeadingTermDecides(da: nat, db: nat, p: nat, va: nat, vb: nat)
    requires da < db && va < p
    ensures da * p + va < db * p + vb
  {
    MulMonotone(da + 1, db, p);
    assert (da + 1) * p == da * p + p;
  }

  lemma MulMonotone(x: nat, y: nat, p: nat)
    requires x <= y
    ensures x * p <= y * p
  {
    assert y * p == x * p + (y - x) * p;
  }

  /** Appending a digit multiplies the value by ten and adds the digit. */
  lemma {:induction false} ValueSnoc(s: string, c: char)
    requires AllDigits(s) && IsDigit(c)
    ensures AllDigits(s + [c])
    ensures Value(s + [c]) == 10 * Value(s) + DigitValue(c)
  {
    var t := s + [c];
    if s != [] {
      assert t[0] == s[0] && t[1..] == s[1..] + [c];
      ValueSnoc(s[1..], c);
      var d, p := DigitValue(s[0]), Pow10(|s| - 1);
      assert Value(t) == d * Pow10(|s|) + Value(s[1..] + [c]);
      assert Pow10(|s|) == 10 * p;
      assert Value(s) == d * p + Value(s[1..]);
      ShiftLeft(d, p, Value(s[1..]), DigitValue(c));
    } else {
      assert t[1..] == [];
    }
  }

  /** Moving the leading term one decimal place up. */
  lemma ShiftLeft(d: nat, p: nat, v: nat, e: nat)
    ensures d * (10 * p) + (10 * v + e) == 10 * (d * p + v) + e
  {
    assert d * (10 * p) == 10 * (d * p);
  }

  /** JavaScript's `String(n)` for a natural number: its decimal digits,
      with no leading zero except in "0" itself. */
  function Decimal(n: nat): (r: string)
    ensures |r| >= 1 && AllDigits(r)
    ensures r[0] == '0' <==> n == 0
    ensures n == 0 ==> r == "0"
  {
    if n < 10 then [DigitChar(n)] else Decimal(n / 10) + [DigitChar(n % 10)]
  }

  /** Reading back the digits `String(n)` writes gives `n`. */
  lemma {:induction false} DecimalValue(n: nat)
    ensures Value(Decimal(n)) == n
  {
    if n < 10 {
      assert Value(Decimal(n)) == DigitValue(DigitChar(n)) * 1 + Value([]);
    } else {
      DecimalValue(n / 10);
      ValueSnoc(Decimal(n / 10), DigitChar(n % 10));
    }
  }
}

/** JavaScript's `<` and `>` on strings: lexicographic comparison of the
    characters, where a proper prefix comes first. */
module LexOrder {
  import opened Text

  predicate LexLess(a: string, b: string)
    ensures a < b ==> LexLess(a, b)
    ensures LexLess(a, b) ==> a != b
    decreases |a|
  {
    if b == [] then false
    else if a == [] then true
    else if a[0] != b[0] then a[0] < b[0]
    else LexLess(a[1..], b[1..])
  }

  lemma {:induction false} LexIrreflexive(a: string)
    ensures !LexLess(a, a)
  {
    if a != [] { LexIrreflexive(a[1..]); }
  }

  lemma {:induction false} LexTransitive(a: string, b: string, c: string)
    requires LexLess(a, b) && LexLess(b, c)
    ensures LexLess(a, c)
    decreases |a|
  {
    if a != [] && a[0] == b[0] && b[0] == c[0] {
      LexTransitive(a[1..], b[1..], c[1..]);
    }
  }

  /** Two strings written from one fixed template: the same length, digits
      in the same positions, and the same separator characters elsewhere, as
      `toISOString()` produces (`YYYY-MM-DDTHH:mm:ss.sssZ`). */
  predicate SameTemplate(a: string, b: string)
  {
    && |a| == |b|
    && forall i :: 0 <= i < |a| ==> (IsDigit(a[i]) <==> IsDigit(b[i])) && (!IsDigit(a[i]) ==> a[i] == b[i])
  }

  /** The digits of `s`, separators dropped. */
  function DigitsOf(s: string): (r: string)
    ensures AllDigits(r)
  {
    if s == [] then [] else (if IsDigit(s[0]) then [s[0]] else []) + DigitsOf(s[1..])
  }

  lemma {:induction false} DigitsOfSameLength(a: string, b: string)
    requires SameTemplate(a, b)
    ensures |DigitsOf(a)| == |DigitsOf(b)|
  {
    if a != [] {
      assert SameTemplate(a[1..], b[1..]) by {
        forall i | 0 <= i < |a| - 1 ensures (IsDigit(a[1..][i]) <==> IsDigit(b[1..][i])) {
          assert a[1..][i] == a[i + 1] && b[1..][i] == b[i + 1];
        }
      }
      DigitsOfSameLength(a[1..], b[1..]);
    }
  }

  /** Equal-length digit strings that differ first in their leading digit
      are ordered by that digit. */
  lemma LeadingDigitDecides(a: string, b: string)
    requires AllDigits(a) && AllDigits(b) && |a| == |b| > 0
    requires a[0] < b[0]
    ensures Value(a) < Value(b)
  {
    var p := Pow10(|a| - 1);
    ValueBelow(a[1..]);
    var da, db := DigitValue(a[0]), DigitValue(b[0]);
    assert Value(a) == da * p + Value(a[1..]);
    assert Value(b) == db * p + Value(b[1..]);
    LeadingTermDecides(da, db, p, Value(a[1..]), Value(b[1..]));
  }


  /** For strings of one template, string order is the numeric order of
      their digits; for ISO-8601 timestamps of fixed precision and zone that
      number is YYYYMMDDhhmmssSSS, so string order is chronological order. */
  lemma {:induction false} LexIsNumericOnTemplate(a: string, b: string)
    requires SameTemplate(a, b)
    ensures LexLess(a, b) <==> Value(DigitsOf(a)) < Value(DigitsOf(b))
    decreases |a|
  {
    if a != [] {
      assert 0 < |a|;
      assert IsDigit(a[0]) <==> IsDigit(b[0]);
      var a', b' := a[1..], b[1..];
      assert SameTemplate(a', b') by {
        forall i | 0 <= i < |a'|
          ensures (IsDigit(a'[i]) <==> IsDigit(b'[i])) && (!IsDigit(a'[i]) ==> a'[i] == b'[i])
        {
          assert a'[i] == a[i + 1] && b'[i] == b[i + 1];
        }
      }
      DigitsOfSameLength(a', b');
      if !IsDigit(a[0]) {
        assert a[0] == b[0];
        assert DigitsOf(a) == DigitsOf(a') && DigitsOf(b) == DigitsOf(b');
        LexIsNumericOnTemplate(a', b');
      } else {
        var da, db := DigitsOf(a), DigitsOf(b);
        assert da == [a[0]] + DigitsOf(a') && db == [b[0]] + DigitsOf(b');
        assert da[1..] == DigitsOf(a') && db[1..] == DigitsOf(b');
        if a[0] == b[0] {
          LexIsNumericOnTemplate(a', b');
        } else if a[0] < b[0] {
          LeadingDigitDecides(da, db);
        } else {
          LeadingDigitDecides(db, da);
        }
      }
    }
  }
}
